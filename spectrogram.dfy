/** Model of the per-row buffer operations of the waterfall generator
    (main.cpp): the input format check, the conversion of interleaved
    stereo int16 PCM into complex samples, the windowing, the centring of
    the spectrum, and the clamp and colour lookup that build an RGB row.

    Sample values are `real`, so every step is exact; the FFT, the squared
    magnitude, the dB scaling and the colour table's contents are not part
    of this model (the table is a parameter). */
module Spectrogram {
  import opened Wav

  datatype Result<T, E> = Ok(value: T) | Err(error: E)

  /** One fftwf_complex / lv_32fc_t value. */
  datatype Complex = Complex(re: real, im: real)

  /** int16_t. */
  type Int16 = x: int | -0x8000 <= x < 0x8000

  // ---------------------------------------------------------------------
  // Format acceptance (main.cpp, reading and checking the header)
  // ---------------------------------------------------------------------

  /** Why the program stops before allocating any buffer. */
  datatype Rejection =
    | Unparsable   // short header read, or a container tag mismatch
    | Unsupported  // anything but two channels of 16-bit samples

  /** What main decides from the bytes at the start of the input: the header
      when processing may continue, otherwise why it stops. */
  function Admit(file: seq<Byte>): (r: Result<WavHeader, Rejection>)
    ensures r.Ok? ==> r.value.channels == 2 && r.value.bitsPerSample == 16
  {
    if |file| < HeaderSize then Err(Unparsable)
    else match ParseHeader(file[..HeaderSize])
      case None => Err(Unparsable)
      case Some(h) => if h.bitsPerSample != 16 || h.channels != 2 then Err(Unsupported) else Ok(h)
  }

  /** The input is accepted exactly when it holds a whole header with the
      three tags, the int16 channel count at bytes 22-23 is 2 and the int16
      bit depth at bytes 34-35 is 16. */
  lemma AdmitSpec(file: seq<Byte>)
    ensures Admit(file).Ok? <==>
              |file| >= HeaderSize
              && file[0..4] == RiffBytes && file[8..12] == WaveBytes && file[12..16] == FmtBytes
              && FieldAt(file, I16, 22) == 2 && FieldAt(file, I16, 34) == 16
  {
    if |file| >= HeaderSize {
      var b := file[..HeaderSize];
      ParseHeaderFails(b);
      assert b[0..4] == file[0..4] && b[8..12] == file[8..12] && b[12..16] == file[12..16];
      assert b[22..24] == file[22..24] && b[34..36] == file[34..36];
    }
  }

  /** A header written with two channels and 16 bits per sample, whatever
      follows it and whatever its skipped fields hold, is accepted with
      exactly the values written. */
  lemma AdmitEncoded(h: WavHeader, x: Skipped, samples: seq<Byte>)
    requires Representable(h) && SkippedInRange(x)
    requires h.channels == 2 && h.bitsPerSample == 16
    ensures Admit(EncodeHeader(h, x) + samples) == Ok(h)
  {
    var file := EncodeHeader(h, x) + samples;
    assert file[..HeaderSize] == EncodeHeader(h, x);
    ParseEncodedHeader(h, x);
  }

  /** main up to the allocation of the buffers: read 44 bytes from the input
      (the stream's contents are given as `file`), parse them, and check the
      channel count and bit depth. */
  method CheckInput(file: seq<Byte>) returns (r: Result<WavHeader, Rejection>)
    ensures r == Admit(file)
  {
    var got := if |file| < HeaderSize then |file| else HeaderSize;
    var headerData := new Byte[HeaderSize](i requires 0 <= i < HeaderSize =>
                                             if i < |file| then file[i] else 0);
    var header := new HeaderRecord();
    if got != HeaderSize {
      return Err(Unparsable);
    }
    assert headerData[..] == file[..HeaderSize];
    var ok := ReadWavHeader(headerData, header);
    if !ok {
      return Err(Unparsable);
    }
    if header.bitsPerSample != 16 || header.channels != 2 {
      return Err(Unsupported);
    }
    return Ok(header.Value());
  }

  // ---------------------------------------------------------------------
  // int16 -> complex conversion
  // ---------------------------------------------------------------------

  /** `sample / 32768.0`. */
  function Normalize(x: Int16): (r: real)
    ensures -1.0 <= r <= 32767.0 / 32768.0
    ensures r == 0.0 <==> x == 0
  {
    x as real / 32768.0
  }

  /** Interleaved (left, right) pairs as complex samples: the left channel
      becomes the real part and the right channel the imaginary part. */
  function Deinterleave(pcm: seq<Int16>): (r: seq<Complex>)
    requires |pcm| % 2 == 0
    ensures |r| == |pcm| / 2
    ensures forall i :: 0 <= i < |r| ==>
              r[i] == Complex(Normalize(pcm[2 * i]), Normalize(pcm[2 * i + 1]))
  {
    if pcm == [] then []
    else [Complex(Normalize(pcm[0]), Normalize(pcm[1]))] + Deinterleave(pcm[2..])
  }

  /** The conversion loop: fill the first `width` complex samples from the
      first 2 * width int16 samples; the rest of the input is not read and
      the rest of the complex buffer is not written. */
  method ConvertRow(samples: array<Int16>, input: array<Complex>, width: nat)
    requires 2 * width <= samples.Length && width <= input.Length
    modifies input
    ensures input[..width] == Deinterleave(samples[..2 * width])
    ensures input[width..] == old(input[width..])
  {
    for i := 0 to width
      invariant forall k :: 0 <= k < i ==>
                  input[k] == Complex(Normalize(samples[2 * k]), Normalize(samples[2 * k + 1]))
      invariant forall k :: i <= k < input.Length ==> input[k] == old(input[k])
    {
      input[i] := input[i].(re := Normalize(samples[(i * 2) + 0]));
      input[i] := input[i].(im := Normalize(samples[(i * 2) + 1]));
    }
  }

  // ---------------------------------------------------------------------
  // apply_window
  // ---------------------------------------------------------------------

  /** Both components of a sample multiplied by the same tap. */
  function Scaled(c: Complex, tap: real): Complex
  {
    Complex(c.re * tap, c.im * tap)
  }

  /** apply_window: the buffer is walked as floats, two per sample, and both
      floats of sample i are multiplied by taps[i]. The taps are read only;
      samples from `count` on are untouched. */
  method ApplyWindow(samples: array<Complex>, taps: array<real>, count: int)
    requires count <= samples.Length && count <= taps.Length
    modifies samples
    ensures forall i :: 0 <= i < samples.Length ==>
              samples[i] == if i < count then Scaled(old(samples[i]), taps[i]) else old(samples[i])
  {
    var i := 0;
    while i < count
      invariant 0 <= i <= (if count > 0 then count else 0)
      invariant forall k :: 0 <= k < samples.Length ==>
                  samples[k] == if k < i then Scaled(old(samples[k]), taps[k]) else old(samples[k])
    {
      samples[i] := samples[i].(re := samples[i].re * taps[i]);
      samples[i] := samples[i].(im := samples[i].im * taps[i]);
      i := i + 1;
    }
  }

  // ---------------------------------------------------------------------
  // offset_spectrum
  // ---------------------------------------------------------------------

  /** C's `count / 2` on an int: the quotient truncated toward zero. */
  function Half(count: int): (h: int)
    ensures count >= 0 ==> 0 <= 2 * h <= count <= 2 * h + 1
    ensures count < 0 ==> 2 * h - 1 <= count <= 2 * h <= 0
  {
    if count >= 0 then count / 2 else -((-count) / 2)
  }

  /** How many swaps offset_spectrum makes. */
  function Swaps(count: int): (n: nat)
    ensures count >= 0 ==> n == Half(count)
    ensures count < 2 ==> n == 0
  {
    if Half(count) > 0 then Half(count) else 0
  }

  /** The spectrum after centring: with h = count / 2, the first h elements
      and the next h elements trade places, which moves the DC bin from
      index 0 to index h; everything from 2h on stays where it is. */
  function Centered<T>(s: seq<T>, count: int): (r: seq<T>)
    requires count <= |s|
    ensures |r| == |s|
    ensures forall i :: 0 <= i < Swaps(count) ==> r[i] == s[i + Swaps(count)]
    ensures forall i :: Swaps(count) <= i < 2 * Swaps(count) ==> r[i] == s[i - Swaps(count)]
    ensures forall i :: 2 * Swaps(count) <= i < |s| ==> r[i] == s[i]
  {
    var h := Swaps(count);
    s[h .. 2 * h] + s[..h] + s[2 * h..]
  }

  /** Centring only reorders the spectrum. */
  lemma CenteredPermutes<T>(s: seq<T>, count: int)
    requires count <= |s|
    ensures multiset(Centered(s, count)) == multiset(s)
  {
    var h := Swaps(count);
    assert s == s[..h] + s[h .. 2 * h] + s[2 * h..];
  }

  /** Centring twice restores the original order, for odd counts too. */
  lemma CenteredTwice<T>(s: seq<T>, count: int)
    requires count <= |s|
    ensures Centered(Centered(s, count), count) == s
  {
    var r := Centered(s, count);
    var rr := Centered(r, count);
    var h := Swaps(count);
    forall i | 0 <= i < |s| ensures rr[i] == s[i] {
      if i < h {
        assert rr[i] == r[i + h];
      } else if i < 2 * h {
        assert rr[i] == r[i - h];
      }
    }
  }

  /** The old DC bin ends at the centre index count / 2. */
  lemma DcBinAtCentre<T>(s: seq<T>, count: int)
    requires 1 <= count <= |s|
    ensures Centered(s, count)[Half(count)] == s[0]
  {
  }

  /** offset_spectrum: two cursors, `left` from the start and `right` from
      count / 2, swap the elements they point at and advance together. */
  method OffsetSpectrum<T>(buffer: array<T>, count: int)
    requires count <= buffer.Length
    modifies buffer
    ensures buffer[..] == Centered(old(buffer[..]), count)
  {
    var half := Half(count);
    var left, right := 0, half;
    var i := 0;
    while i < half
      invariant 0 <= i <= Swaps(count) && left == i && right == half + i
      invariant forall k :: 0 <= k < i ==>
                  buffer[k] == old(buffer[k + half]) && buffer[k + half] == old(buffer[k])
      invariant forall k :: 0 <= k < buffer.Length && !(k < i) && !(half <= k < half + i) ==>
                  buffer[k] == old(buffer[k])
    {
      var temp := buffer[left];
      buffer[left] := buffer[right];
      left := left + 1;
      buffer[right] := temp;
      right := right + 1;
      i := i + 1;
    }
    ghost var s := old(buffer[..]);
    var r := Centered(s, count);
    forall k | 0 <= k < buffer.Length ensures buffer[k] == r[k] {
      if k < i {
        assert buffer[k] == s[k + half];
      } else if half <= k < half + i {
        assert buffer[(k - half) + half] == s[k - half];
      }
    }
    assert buffer[..] == r;
  }

  // The order of frequencies along a row. Bin k of an n-point transform
  // stands for frequency k when 2k < n and for k - n otherwise. Centring is
  // meant to lay the row out from the most negative frequency to the most
  // positive one, with DC in the middle.

  /** The signed frequency of bin k of an n-point transform. */
  function Frequency(k: nat, n: nat): int
    requires k < n
  {
    if 2 * k < n then k else k - n
  }

  /** The frequencies of the bins in transform order. */
  function Bins(n: nat): seq<int>
  {
    seq(n, k requires 0 <= k < n => Frequency(k, n))
  }

  /** As written, offset_spectrum gets an odd-length row wrong: the first
      pixel shows frequency +n/2 and the last one frequency -1, so the row
      is not in ascending order (for n = 3 it reads +1, 0, -1). */
  lemma CenteredOddMisorders(n: nat)
    requires n >= 3 && n % 2 == 1
    ensures Centered(Bins(n), n)[0] == n / 2 > 0
    ensures Centered(Bins(n), n)[n - 1] == -1
  {
    var h := Swaps(n);
    assert Centered(Bins(n), n)[0] == Bins(n)[h];
    assert 2 * h == n - 1;
  }

  /** Centring as evidently intended: rotate the row right by n / 2, so that
      the last n / 2 bins (the negative frequencies) come first. */
  function Shifted<T>(s: seq<T>): (r: seq<T>)
    ensures |r| == |s|
  {
    s[|s| - |s| / 2 ..] + s[.. |s| - |s| / 2]
  }

  /** The rotated row reads -n/2, ..., -1, 0, 1, ... in order, with DC at
      index n / 2, for every length. */
  lemma ShiftedAscending(n: nat)
    ensures forall i :: 0 <= i < n ==> Shifted(Bins(n))[i] == i - n / 2
  {
    var h := n / 2;
    var b := Bins(n);
    forall i | 0 <= i < n ensures Shifted(b)[i] == i - h {
      if i < h {
        assert Shifted(b)[i] == b[n - h + i];
        assert 2 * (n - h + i) >= n;
      } else {
        assert Shifted(b)[i] == b[i - h];
        assert 2 * (i - h) < n;
      }
    }
  }

  /** For even lengths the code's half swap and the rotation coincide. */
  lemma ShiftedIsCenteredWhenEven<T>(s: seq<T>)
    requires |s| % 2 == 0
    ensures Shifted(s) == Centered(s, |s|)
  {
  }

  // ---------------------------------------------------------------------
  // Clamp and colour lookup
  // ---------------------------------------------------------------------

  /** The pixel intensity a level is constrained to. */
  function Clamp(v: int): (r: int)
  {
    if v < 0 then 0 else if 255 < v then 255 else v
  }

  /** The constrain step of the drawing loop: two successive bounds checks on
      the local `valueInt`. */
  method Constrain(valueInt: int) returns (v: int)
    ensures 0 <= v <= 255
    ensures v == Clamp(valueInt)
  {
    v := valueInt;
    if v > 255 {
      v := 255;
    }
    if v < 0 {
      v := 0;
    }
  }

  /** The clamp keeps in-range values, saturates at both ends, and never
      leaves [0, 255]. */
  lemma ClampSpec(v: int)
    ensures 0 <= Clamp(v) <= 255
    ensures 0 <= v <= 255 ==> Clamp(v) == v
    ensures v > 255 ==> Clamp(v) == 255
    ensures v < 0 ==> Clamp(v) == 0
  {
  }

  lemma ClampIdempotent(v: int)
    ensures Clamp(Clamp(v)) == Clamp(v)
  {
  }

  lemma ClampMonotone(v: int, w: int)
    requires v <= w
    ensures Clamp(v) <= Clamp(w)
  {
  }

  /** The colour table holds 256 RGB triples. */
  const TableSize: nat := 768

  /** The RGB triple of the table entry for the clamped level. The three
      bytes read lie within the table: the last one is at most 767. */
  function Colour(table: seq<Byte>, v: int): (c: seq<Byte>)
    requires |table| == TableSize
    ensures 3 * Clamp(v) + 2 <= TableSize - 1
    ensures |c| == 3
    ensures c == [table[3 * Clamp(v)], table[3 * Clamp(v) + 1], table[3 * Clamp(v) + 2]]
  {
    table[3 * Clamp(v) .. 3 * Clamp(v) + 3]
  }

  /** The RGB row for a row of levels: pixel i is the colour of level i. */
  function RowPixels(levels: seq<int>, table: seq<Byte>): (r: seq<Byte>)
    requires |table| == TableSize
    ensures |r| == 3 * |levels|
    ensures forall i :: 0 <= i < |levels| ==> r[3 * i .. 3 * i + 3] == Colour(table, levels[i])
  {
    if levels == [] then []
    else RowPixels(levels[..|levels| - 1], table) + Colour(table, levels[|levels| - 1])
  }

  /** The `memcpy` of one colour: three bytes from table[src..] to row[dst..]
      and nothing else in the row. */
  method CopyColour(row: array<Byte>, dst: nat, table: seq<Byte>, src: nat)
    requires dst + 3 <= row.Length && src + 3 <= |table|
    modifies row
    ensures row[..] == old(row[..])[..dst] + table[src .. src + 3] + old(row[..])[dst + 3..]
  {
    row[dst] := table[src];
    row[dst + 1] := table[src + 1];
    row[dst + 2] := table[src + 2];
  }

  /** The drawing loop, from each bin's integer level `valueInt` on: clamp
      it and copy the matching table entry into the pixel's three bytes. */
  method DrawRow(levels: seq<int>, table: seq<Byte>, row: array<Byte>)
    requires |table| == TableSize && row.Length == 3 * |levels|
    modifies row
    ensures row[..] == RowPixels(levels, table)
  {
    var width := |levels|;
    for i := 0 to width
      invariant row[..3 * i] == RowPixels(levels[..i], table)
    {
      var valueInt := Constrain(levels[i]);
      ghost var before := row[..];
      CopyColour(row, i * 3, table, valueInt * 3);
      assert levels[..i + 1][..i] == levels[..i];
      assert row[..3 * (i + 1)] == before[..3 * i] + Colour(table, levels[i]);
    }
    assert levels[..width] == levels;
  }
}
