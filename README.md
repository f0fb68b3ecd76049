# WAV spectrogram generator: header reader and per-row buffer operations

This project is a Dafny model of the core of a command-line tool. The tool reads a
stereo 16-bit WAV file and draws it as a waterfall spectrogram PNG, one image row per
block of `width` sample pairs. The model covers two pieces.

- **The WAV header reader** (`wav.cpp`, `wav.h`), in module `Wav`.
  - `_wav_read<T>` becomes `Wav.WavRead`. It reads a field at a cursor in a 44-byte
    array and returns the advanced cursor and the decreased `remaining` counter.
  - `read_wav_header` becomes `Wav.ReadWavHeader`. It makes the same thirteen reads in
    the same order, checks the same three tag constants, and writes the four fields of
    the caller's `wav_header_data`, modelled as the class `Wav.HeaderRecord`.
  - The method is proved against `Wav.ParseHeader`, a pure reading of the buffer at
    fixed offsets. The lemmas are stated about `ParseHeader`:
    - the exact failure condition, on the tag bytes;
    - the fields that cannot affect the result;
    - the round trip through `Wav.EncodeHeader`.
  - `memcpy` into an integer is a little-endian decode. The signed fields are
    two's complement, and the int16 fields are sign-extended into the record.
- **The per-row buffer operations of `main.cpp`**, in module `Spectrogram`:
  - the 16-bit / 2-channel acceptance check at start-up (`CheckInput`, specified by
    `Admit`);
  - the conversion of interleaved int16 pairs into complex samples (`ConvertRow`);
  - `apply_window` (`ApplyWindow`);
  - `offset_spectrum`, the in-place half swap (`OffsetSpectrum`, specified by
    `Centered`);
  - the clamp of each pixel level to [0, 255] (`Constrain`);
  - the copy of the matching colour-table triple into the RGB row (`CopyColour`,
    `DrawRow`).

Sample values are `real`: the model computes in exact reals where the program computes in `float`.
The colour table is a parameter of 768 bytes.

## Model

| member | source | states |
|---|---|---|
| Wav.LeValue | wav.cpp:8 | the little-endian value of n bytes is below 256^n |
| Wav.LeBytes | wav.cpp:8 | every value below 256^n has n little-endian bytes that read back as that value |
| Wav.LeValueInjective | wav.cpp:8 | two byte strings of equal length with the same little-endian value are equal |
| Wav.UnsignedIsLeValue | wav.cpp:8 | the fixed-width 2- and 4-byte readings agree with the positional little-endian value |
| Wav.Decode | wav.cpp:7-8 | a decoded uint32, int32 or int16 always lies in the range of its C type |
| Wav.DecodeEncode | wav.cpp:7-8 | decoding the object representation of any value of the type gives that value back, including negative two's-complement values |
| Wav.ParseHeader | wav.cpp:17-45 | a successful parse yields four values that fit int32, int16, int32 and int16 |
| Wav.TagMatches | wav.cpp:35 | a 4-byte field equals a tag constant exactly when its bytes are the tag's ASCII letters |
| Wav.ParseHeaderFails | wav.cpp:35-36 | parsing fails if and only if bytes 0-3 are not "RIFF", bytes 8-11 are not "WAVE" or bytes 12-15 are not "fmt " |
| Wav.IgnoredFieldsIrrelevant | wav.cpp:21-32 | the chunk length, fmt length, format tag, byte rate, block align and "data" tag cannot change the outcome or any output field |
| Wav.ParseEncodedHeader | wav.cpp:20-42 | for any representable record and any skipped fields, reading the encoded 44 bytes gives exactly that record back |
| Wav.WavRead | wav.cpp:4-15 | returns the value of the sizeof(T) bytes at the cursor, advances the cursor by sizeof(T) and decreases `remaining` by the same amount |
| Wav.ReadWavHeader | wav.cpp:17-45 | the cursor walk succeeds exactly when the fixed-offset reading does; on success the record holds that reading's four fields; on failure the record is untouched |
| Spectrogram.Admit | main.cpp:84-91 | processing continues only with a header whose channel count is 2 and whose bit depth is 16 |
| Spectrogram.AdmitSpec | main.cpp:84-91 | the input is accepted if and only if it holds 44 bytes, the three tags match, the int16 at bytes 22-23 is 2 and the int16 at bytes 34-35 is 16 |
| Spectrogram.AdmitEncoded | main.cpp:84-91 | an encoded header with 2 channels and 16 bits, whatever follows it, is accepted with exactly the values written |
| Spectrogram.CheckInput | main.cpp:81-91 | reading the header, parsing it and checking the format gives the verdict of `Admit` |
| Spectrogram.Normalize | main.cpp:132-133 | every converted component lies in [-1, 32767/32768] and is zero exactly for a zero sample |
| Spectrogram.Deinterleave | main.cpp:131-134 | one complex sample per pair: sample 2i is the real part and sample 2i+1 the imaginary part, both divided by 32768 |
| Spectrogram.ConvertRow | main.cpp:131-134 | the first `width` complex samples are the de-interleaved first 2·width int16 samples; later samples are not read and later complex entries do not change |
| Spectrogram.ApplyWindow | main.cpp:24-30 | every sample below `count` has both parts multiplied by its own tap; every other sample is unchanged |
| Spectrogram.Half | main.cpp:12 | C's truncating `count / 2`, bounded for both signs of `count` |
| Spectrogram.Swaps | main.cpp:12-16 | the loop swaps count/2 pairs and none at all when count < 2 |
| Spectrogram.Centered | main.cpp:11-22 | with h = count/2, index i < h takes old i+h, index i+h takes old i, and every index from 2h on keeps its element |
| Spectrogram.CenteredPermutes | main.cpp:11-22 | centring preserves the multiset of elements |
| Spectrogram.CenteredTwice | main.cpp:11-22 | centring twice restores the buffer, for odd counts as well as even ones |
| Spectrogram.DcBinAtCentre | main.cpp:12-21 | the old DC bin at index 0 ends at index count/2 |
| Spectrogram.OffsetSpectrum | main.cpp:11-22 | the two-cursor swap loop leaves the buffer equal to `Centered` of its old contents |
| Spectrogram.CenteredOddMisorders | main.cpp:11-22 | for every odd width of at least 3, the centred row starts at frequency +n/2 and ends at frequency -1 |
| Spectrogram.Shifted | main.cpp:11-22 | rotating the row right by n/2 keeps its length |
| Spectrogram.ShiftedAscending | main.cpp:11-22 | after the rotation, position i shows frequency i - n/2 for every length, so DC is at n/2 and the row ascends |
| Spectrogram.ShiftedIsCenteredWhenEven | main.cpp:11-22 | for even widths the rotation and the code's half swap agree |
| Spectrogram.Constrain | main.cpp:158-162 | the two bounds checks give a value in [0, 255], equal to the clamp of the level |
| Spectrogram.ClampSpec | main.cpp:158-162 | the clamp never leaves [0, 255], keeps in-range values, gives 255 above the range and 0 below it |
| Spectrogram.ClampIdempotent | main.cpp:158-162 | clamping a clamped value changes nothing |
| Spectrogram.ClampMonotone | main.cpp:158-162 | the clamp preserves the order of levels |
| Spectrogram.Colour | main.cpp:165 | the three bytes read from the table lie at indices at most 767 and are the triple of the clamped level |
| Spectrogram.RowPixels | main.cpp:151-166 | the row is three bytes per level, and bytes 3i..3i+2 are the colour of level i |
| Spectrogram.CopyColour | main.cpp:165 | the copy writes the three table bytes into the pixel's three bytes and changes nothing else in the row |
| Spectrogram.DrawRow | main.cpp:151-166 | after the loop, the row buffer holds `RowPixels` of the levels |

## Left out

- `window.cpp` (`create_window`, `coswindow`) is single-precision `cosf` arithmetic. The taps are a `real` array parameter of `ApplyWindow`. Its division by zero for width 1 is not modelled.
- The FFT (`fftwf_execute`) and the squared magnitude (`volk_32fc_magnitude_squared_32f`) are calls into foreign libraries and are not modelled. Centring is stated over any element type.
- The dB scaling (`log10`) and the truncating `(int)` cast at main.cpp:153-156 are floating-point and are not modelled. The model starts from the integer `valueInt` of each bin; `DrawRow` takes these levels as input.
- Real numbers stand for `float`. The rounding of the window products (main.cpp:27-28) is not modelled; the conversion `sample / 32768.0` is exact in `float` as well.
- `parse_args` is argument parsing and file opening. It is not modelled, and neither is its return convention: every error path returns 1 and success falls off the end.
- All I/O is left out: `fread`, `printf`, the libpng calls, and the allocation and freeing of buffers.
  - `CheckInput` takes the input stream's contents as a byte sequence.
  - The per-row `fread` and its unchecked short read are not modelled.
  - The loop over rows that chains conversion, window, transform, centring and drawing is not modelled.
- The colour table comes from `color_table.h`, which is not part of this model. Any 768-byte table is a parameter.
- Wav.WavRead: the C cursor is a pointer into the caller's buffer and `remaining` is a `size_t` behind a pointer. Here both are natural numbers passed in and returned, so the model has no aliasing between them and the buffer.
- Wav.ReadWavHeader: the source takes a pointer that the caller guarantees covers 44 bytes. The model requires an array of exactly 44 bytes. A shorter read is rejected earlier, in `CheckInput`.

A header shorter than 44 bytes is rejected by `main` on `fread`'s count (main.cpp:84), not by `read_wav_header`. The model does the same: the test is in `Admit` and `CheckInput`.

## Findings

| source | as written | input that shows it | evidently intended | confidence | as-written member | corrected member |
|---|---|---|---|---|---|---|
| main.cpp:11-22 | for an odd `count`, the first count/2 bins trade places with the next count/2 and the last bin stays at the end (`Spectrogram.Frequency` and `Spectrogram.Bins` encode the transform's output order: bin k stands for frequency k below n/2 and for k - n from n/2 on) | width 3: bins for frequencies 0, +1, -1 come out as +1, 0, -1, so the row is not in frequency order | a rotation by count/2 that puts the negative frequencies first and DC at count/2, as for even widths (frequencies -1, 0, +1) | medium, not executed | Spectrogram.CenteredOddMisorders | Spectrogram.ShiftedAscending |
