# cam-wrangle LUT pipeline in Dafny

cam-wrangle is a live camera preview that grades every frame through
OpenColorIO. Evaluating the OpenColorIO processor on every pixel is too slow.
Instead, `OcioPipeline.update_processor` bakes the whole transform chain
(input to working colour space, a CDL grade, a white-balance and gain matrix,
then the display/view transform) once, over a 32 x 32 x 32 grid of RGB
points. It lays the cube out as a 2D atlas of 32*32 rows by 32 columns.
`apply_lut` then maps each frame pixel to atlas coordinates:

- red picks the column;
- blue, floored, picks a tile of 32 rows;
- green picks the row within that tile.

`cv2.remap` does the lookup. `ColourPipeline.process_bgr_u8` wraps this in
the 8-bit frame path: BGR bytes to float RGB, the lookup, scale and clamp to
[0, 255] in place, a truncating cast back to 8-bit, and the reorder back to
BGR. The preview loop adds two small pure helpers: trackbar positions to
(temperature, tint, gain), and the capture device's FOURCC code to its four
characters.

The model is organised as follows:

- `Ocio` (`ocio.dfy`) covers `python/ocio.py`:
  - the transform chain as data;
  - the bake layout as functions (`Linspace`, `Lattice`, `BakeInput`, `Reshape`, `Atlas`);
  - the sample coordinates (`SampleX`, `TileIndex`, `SampleY`);
  - the pipeline object as a class. Its atlas field is replaced wholesale by `UpdateProcessor`. The bake buffer is an array that `ApplyRGB` transforms in place, and `ApplyLut` writes the looked-up colours back into the frame buffer it is given.
- `Colour` (`colour.dfy`) covers `python/colour.py`:
  - the white-balance multipliers;
  - the per-pixel conversions;
  - the in-place scale-and-clamp loop;
  - `ColourPipeline`.
- `Preview` (`preview.dfy`) covers `read_sliders` and `fourcc_str` from `python/preview.py`.
- Support modules:
  - `Wrappers` holds `Option`;
  - `Pixel` holds the RGB and BGR pixel types, `Byte` and `MapPixels`;
  - `Arith` holds the integer facts the layout proofs use.

Floating point is modelled with exact reals. Python's `>>` and `& 0xFF` on
integers are modelled as Euclidean division and remainder, which agree with
Python for negative values too. `int()` on a float truncates toward zero.
A division by a zero Python float raises, and is modelled as `None`.

The OpenColorIO library and `cv2.remap` are parameters:

- A `Config` maps a transform chain to its colour function, or to `None` when the library would raise.
- A `Remap` receives the atlas and the two sample coordinates.

What is proved about them is stated relative to those parameters. For
example, `LookupAtGridPoint` says that a sampler exact at texel centres
reproduces the baked transform at every grid point.

### Behaviour of the code worth noting

- Output quantisation truncates (`astype(np.uint8)`): (0.5, 0.25, 0.75)
  becomes R=127, G=63, B=191. See `Colour.QuantizeTruncates`.
- `apply_lut` does not clamp pixel values before computing atlas
  coordinates. The coordinate bounds (`Ocio.SampleInBounds`) therefore hold
  only for pixels in the unit cube.
- There is no memoisation. Every `update_processor` call rebuilds the chain
  and re-bakes the atlas, replacing the previous one.
- `process_bgr_u8` accepts temperature, tint and gain and does not use them.
  Grading reaches the frame only through a previously baked atlas.
- Nothing in the program calls `update_processor` or
  `wb_multipliers_from_temp_tint`; they are only defined. `lut_map` therefore
  stays `None` when the preview runs, and `apply_lut` hands `None` to
  `cv2.remap`. The model's statements about baking (`Ocio.OcioPipeline.UpdateProcessor`,
  `Ocio.AtlasAt`) and about the sliders feeding the white balance
  (`Preview.SlidersGivePositiveWb`) describe these functions as defined, not
  a path the preview takes.
- Frame sizes are not checked against the configured working or output size.
- `run_preview` passes four arguments to `OcioPipeline` and three to
  `ColourPipeline`, but their constructors expect five and four. The model
  follows the constructors as defined in `python/ocio.py:6` and
  `python/colour.py:6`.

## Model

| member | source | states |
|---|---|---|
| Ocio.ProcessorChain | python/ocio.py:18-35 | The group has exactly four transforms in this order: input to working colour space; a CDL with the same slope, power and offset on all three channels; a 4x4 matrix whose diagonal is (r*gain, g*gain, b*gain, 1) and whose other entries are zero; working space to the display/view. |
| Ocio.GainMatrixScalesChannels | python/ocio.py:28-29 | The chain's matrix maps every colour (r', g', b') to (r*gain*r', g*gain*g', b*gain*b'). It scales each channel independently and adds no offset. |
| Ocio.ApplyMatrix44 | python/ocio.py:28-29 | The action of a row-major 4x4 matrix on (r, g, b, 1). Its property for the chain's matrix is stated by `Ocio.GainMatrixScalesChannels`. |
| Ocio.GridValue | python/ocio.py:40 | Each linspace sample lies in [0, 1]. |
| Ocio.Linspace | python/ocio.py:40 | The grid has exactly n samples, and sample i is the i-th grid value. |
| Ocio.LinspaceEndpoints | python/ocio.py:40 | With two or more samples the grid starts exactly at 0 and ends exactly at 1. |
| Ocio.GridScaled | python/ocio.py:40 | Sample i times (n-1) is exactly i, so scaling a grid value back to cube coordinates recovers its index. |
| Ocio.LinspaceIncreasing | python/ocio.py:40 | The program's 32-point grid is strictly increasing. |
| Ocio.GridPoint | python/ocio.py:40-42 | The cube sample (grid[i], grid[j], grid[k]). Where it lands in the bake input is stated by `Ocio.BakeInputAt`, and where it lands in the atlas by `Ocio.AtlasAt`. |
| Ocio.Lattice | python/ocio.py:41 | The meshgrid stack is a cube of side n on all three axes. |
| Ocio.FlattenLength | python/ocio.py:42 | Flattening h rows of width w gives h*w elements. |
| Ocio.FlattenAt | python/ocio.py:42 | Row-major flattening puts element p of row q at position q*w + p. |
| Ocio.FlatIndex | python/ocio.py:42 | The flat position of cube point (i, j, k) is below n^3. |
| Ocio.FlattenCubeLength | python/ocio.py:42 | Flattening a cube of side n gives n^3 elements. |
| Ocio.FlattenCube | python/ocio.py:42 | The C-order `reshape(-1, 3)` of the stacked cube. Its length is stated by `Ocio.FlattenCubeLength` and its layout by `Ocio.FlattenCubeAt`. |
| Ocio.FlattenCubeAt | python/ocio.py:41-42 | After the cube is reshaped to a flat list, point (i, j, k) sits at k*n^2 + j*n + i: red varies fastest, blue slowest. |
| Ocio.BakeInput | python/ocio.py:40-42 | The bake input holds exactly n^3 RGB triples. |
| Ocio.BakeInputAt | python/ocio.py:40-42 | Entry k*n^2 + j*n + i of the bake input is the grid point (grid[i], grid[j], grid[k]). |
| Ocio.Reshape | python/ocio.py:45 | Reshaping h*w elements gives h rows of exactly w elements each. |
| Ocio.ReshapeAt | python/ocio.py:45 | Element p of reshaped row q is flat element q*w + p. |
| Ocio.FlattenReshape | python/ocio.py:45 | Reshaping and then flattening returns the original flat sequence. |
| Ocio.CellIndex | python/ocio.py:45 | Atlas row k*n + j is in range, and cell (k*n + j, i) corresponds to flat position k*n^2 + j*n + i. |
| Ocio.ReshapeCubeAt | python/ocio.py:45 | Reshaping a flattened cube to n*n rows of n puts point (i, j, k) at row k*n + j, column i. |
| Ocio.TransformedBakeAt | python/ocio.py:44 | After applyRGB, entry k*n^2 + j*n + i of the buffer is the transform of grid point (i, j, k). |
| Ocio.Atlas | python/ocio.py:44-45 | `lut_map`: the transformed bake input reshaped to n*n rows of n. Its contents are stated by `Ocio.AtlasAt` and `Ocio.AtlasCellAt`. |
| Ocio.AtlasAt | python/ocio.py:40-45 | The atlas has n*n rows of n texels, and the texel at CubeToCell(i, j, k) = (k*n + j, i) is the transform of grid point (i, j, k). |
| Ocio.CubeToCell | python/ocio.py:45 | The atlas cell of a cube point lies inside the n*n by n atlas. |
| Ocio.CellToCube | python/ocio.py:45 | The cube point stored in an atlas cell has all three indices below n. |
| Ocio.CubeCellRoundTrip | python/ocio.py:45 | Mapping a cube point to its atlas cell and back returns the same point. |
| Ocio.CellCubeRoundTrip | python/ocio.py:45 | Mapping an atlas cell to its cube point and back returns the same cell. |
| Ocio.AtlasCellAt | python/ocio.py:40-45 | Every atlas cell (row, col) holds the transform of the grid point CellToCube(row, col) = (col, row mod n, row div n). No cell is left unassigned. |
| Ocio.TileRows | python/ocio.py:55 | Tile t spans rows t*n to t*n + n - 1, and all of them lie inside the atlas. |
| Ocio.SampleX | python/ocio.py:50-54 | map_x = r*(N-1). Its bounds are stated by `Ocio.ColumnInRange` and `Ocio.SampleInBounds`, and its value at grid points by `Ocio.ColumnAtGridPoint`. |
| Ocio.TileIndex | python/ocio.py:52-55 | floor(b*(N-1)), the tile selected by blue. Its bounds are stated by `Ocio.TileInRange`, and its value at grid points by `Ocio.TileAtGridPoint`. |
| Ocio.SampleY | python/ocio.py:51-55 | map_y = g*(N-1) + floor(b*(N-1))*N. Its bounds are stated by `Ocio.RowInTile` and `Ocio.SampleInBounds`, and its value at grid points by `Ocio.RowAtGridPoint`. |
| Ocio.ColumnInRange | python/ocio.py:50-54 | Red in [0, 1] gives map_x in [0, 31]. |
| Ocio.TileInRange | python/ocio.py:52-55 | Blue in [0, 1] selects a tile in [0, 31]. |
| Ocio.RowInTile | python/ocio.py:51-55 | Green in [0, 1] keeps map_y inside the 32 rows of the tile selected by blue. |
| Ocio.SampleInBounds | python/ocio.py:50-55 | For a pixel in the unit cube, map_x lies in [0, 31], the tile in [0, 31], map_y within that tile's rows, and map_y in [0, 1023]. |
| Ocio.SampleWhite | python/ocio.py:50-55 | White maps to the last column (n-1) and the last atlas row (n*n - 1). |
| Ocio.ColumnAtGridPoint | python/ocio.py:50-54 | At grid point (i, j, k), map_x is exactly i. |
| Ocio.TileAtGridPoint | python/ocio.py:52-55 | At grid point (i, j, k), the floored blue coordinate selects tile k. |
| Ocio.RowAtGridPoint | python/ocio.py:51-55 | At grid point (i, j, k), map_y is exactly k*n + j. |
| Ocio.SampleAtGridPoint | python/ocio.py:50-55 | At grid point (i, j, k), map_x = i, the tile is k and map_y = k*n + j. Together (map_y, map_x) is exactly the atlas cell CubeToCell(i, j, k) where `Ocio.AtlasAt` puts that point. |
| Ocio.LookupAtGridPoint | python/ocio.py:44-59 | With a sampler that is exact at texel centres, looking up any grid point in the atlas returns the transform of that point. |
| Ocio.ApplyRGB | python/ocio.py:44 | In place, every buffer entry becomes the processor applied to its old value. Order and length are kept. |
| Ocio.OcioPipeline.constructor | python/ocio.py:6-15 | Stores the configuration and the four space names. No atlas is baked yet. |
| Ocio.OcioPipeline.UpdateProcessor | python/ocio.py:18-45 | Succeeds exactly when the configuration resolves the chain. On success the atlas becomes the bake of that processor at resolution 32, whatever was there before. On failure the atlas is unchanged. |
| Ocio.OcioPipeline.ApplyLut | python/ocio.py:47-60 | With an atlas, every frame pixel is replaced in place by the sampler's value at (r*(N-1), g*(N-1) + floor(b*(N-1))*N). Without one the call fails and the frame is untouched. |
| Ocio.RebakeIgnoresPreviousAtlas | python/ocio.py:18-45 | Two pipelines with the same configuration and spaces, whatever atlases they held before, succeed or fail together when baking the same white balance, gain, slope, power and offset. On success they hold the same atlas. |
| Colour.WbMultipliers | python/colour.py:32-37 | The multipliers exist exactly when tint*strength is not -3, which is when their mean is non-zero. When they exist, their mean is exactly 1, and each is its raw value (1 + temp*strength for red, 1 + tint*strength for green, 1 - temp*strength for blue) divided by the mean of the three raw values. |
| Colour.WbNeutral | python/colour.py:32-37 | Temperature 0 and tint 0 give multipliers (1, 1, 1) for any strength. |
| Colour.WbPositive | python/colour.py:32-37 | With the default strength 0.5 and both sliders in [-1, 1], all three multipliers exist and are strictly positive. |
| Colour.WbGreenIgnoresTemp | python/colour.py:32-37 | The green multiplier, and whether a result exists, do not depend on temperature. |
| Colour.WbWarmth | python/colour.py:32-37 | For positive strength and a positive mean, red is at least blue exactly when temperature is at least 0. |
| Colour.ToUnitRgb | python/colour.py:21 | BGR bytes become RGB floats in the unit cube. Each channel is swapped to RGB order and times 255 equals its byte. |
| Colour.ScaleClamp | python/colour.py:27 | The scaled value lies in [0, 255]. It equals x*255 when that is in range, 0 below the range and 255 above it. |
| Colour.ScaleClampRgb | python/colour.py:27 | `np.clip(x * 255, 0, 255)` per channel. Each channel's bounds and cases are stated by `Colour.ScaleClamp`, and its in-place use by `Colour.ScaleClampInPlace`. |
| Colour.Truncate | python/colour.py:28 | The uint8 cast of a clamped value is the byte v with v <= x < v + 1. |
| Colour.ToBgr | python/colour.py:28 | Each output byte truncates the matching float channel, with red and blue swapped back to BGR order. |
| Colour.Quantize | python/colour.py:27-28 | Each output byte is the truncation of the clamped channel times 255. |
| Colour.QuantizeTruncates | python/colour.py:27-28 | (0.5, 0.25, 0.75) is quantised to B=191, G=63, R=127. |
| Colour.ByteRoundTrip | python/colour.py:21-28 | Converting a byte pixel to float and quantising it back gives the same pixel. |
| Colour.ProcessPixel | python/colour.py:21-28 | One pixel through `process_bgr_u8` between the resizes: to float, lookup at the atlas coordinates, quantise. `Colour.IdentityLookupPreservesPixel` states that an identity lookup returns the input, and `Colour.ColourPipeline.ProcessBgrU8` applies it to every pixel. |
| Colour.IdentityLookupPreservesPixel | python/colour.py:21-28 | If the lookup returns its input, the whole per-pixel path returns the input bytes. |
| Colour.ToFloatFrame | python/colour.py:21 | A fresh float buffer of the same length, with each pixel converted by ToUnitRgb. |
| Colour.ScaleClampInPlace | python/colour.py:27 | In place, every pixel becomes its scaled and clamped value, and every channel ends in [0, 255]. |
| Colour.ToByteFrame | python/colour.py:28 | A fresh byte buffer of the same length, with each pixel converted by ToBgr. |
| Colour.ColourPipeline.constructor | python/colour.py:6-11 | Stores the output size, the working size and the OCIO pipeline. |
| Colour.ColourPipeline.ProcessBgrU8 | python/colour.py:14-30 | Succeeds exactly when an atlas is baked. Each output pixel is then the input pixel converted to float, looked up at its atlas coordinates, scaled, clamped and truncated back to BGR bytes. |
| Preview.ReadSliders | python/preview.py:16-25 | Temperature and tint are (pos - 100) / 100 and gain is pos / 100, so each position can be recovered from its value. Positions within the trackbar ranges give temperature and tint in [-1, 1] and gain in [0, 4]. |
| Preview.DefaultSlidersNeutral | python/preview.py:12-25 | The initial trackbar positions (100, 100, 100) give temperature 0, tint 0 and gain 1. |
| Preview.ReadSlidersMonotone | python/preview.py:21-23 | Each parameter strictly increases with its trackbar position. |
| Preview.SlidersGivePositiveWb | python/preview.py:12-25 | Every temperature and tint trackbar position gives white-balance multipliers that exist and are strictly positive. |
| Preview.Pow256 | python/preview.py:52 | Shifting by 8*i bits divides by a positive power of 256. |
| Preview.ByteAt | python/preview.py:52 | For the four bytes the code reads, `(v >> 8*i) & 0xFF` depends only on v modulo 2^32. |
| Preview.ByteLow32 | python/preview.py:52 | Bytes 0 to 3 of v are the same as bytes 0 to 3 of v mod 2^32. |
| Preview.TruncToInt | python/preview.py:51 | int() of a float is the integer nearest zero that is within 1 of it. |
| Preview.FourccChars | python/preview.py:50-52 | Exactly four characters: character i is byte i of the code, least significant first. |
| Preview.FourccStr | python/preview.py:50-52 | Exactly four characters. Character i is byte i of int(v), truncated toward zero, and is below 256. |
| Preview.FourccLow32 | python/preview.py:50-52 | Codes that agree modulo 2^32 print the same string. |
| Preview.PackFourcc | python/preview.py:45 | Packing four byte-sized characters little-endian gives a code in [0, 2^32). This equals `VideoWriter_fourcc` for the ASCII "MJPG" the program passes. |
| Preview.UnpackBytes | python/preview.py:52 | Byte i of c0 + 256*c1 + 65536*c2 + 16777216*c3 is c_i. |
| Preview.FourccRoundTrip | python/preview.py:45-52 | Printing a packed code gives back its four characters. |
| Preview.FourccPackInverse | python/preview.py:45-52 | Packing the printed string gives back every code in [0, 2^32). |
| Preview.MjpgRoundTrip | python/preview.py:45-54 | The requested "MJPG" code is 1196444237, and read back as a float it prints as "MJPG". |

## Left out

- OpenColorIO itself is not modelled:
  - loading the configuration file;
  - evaluating the colour-space, CDL and display/view transforms;
  - `getDefaultCPUProcessor`.
  The processor is a parameter of the model.
- `cv2.remap`'s bilinear interpolation and its border handling are not modelled. Only the coordinates it is given, and its behaviour at texel centres, are.
- `cv2.resize` (INTER_AREA down, INTER_LINEAR up) and `cv2.flip` in `process_bgr_u8` are not modelled. `Colour.ColourPipeline.ProcessBgrU8` takes the frame after the downsample and flip, and returns it before the final upsample.
- The pipeline's working size is read from `config.COLOUR_DOWNSAMPLING`, which `python/config.py` does not define. `Colour.ColourPipeline.constructor` takes the working size directly.
- Frames are H x W x 3 arrays in the program; the model holds them as flat pixel arrays (`array<RGB>`, `array<Bgr>`) in row-major order. Every modelled step after the resize and flip is per-pixel, so the flat layout loses nothing.
- float32 rounding is not modelled. All arithmetic is exact, so `Colour.ByteRoundTrip` and the grid-point lemmas hold in the model but only approximately in float32.
- Preview.PackFourcc: gives the unsigned code. OpenCV's `VideoWriter_fourcc` returns a signed 32-bit int, so a fourth character of 128 or more gives a negative code there. The two agree modulo 2^32, so the printed string is the same (`Preview.FourccLow32`), and they agree exactly for the ASCII "MJPG" the program uses.
- Ocio.OcioPipeline.UpdateProcessor: numpy's reshape returns a view of the bake buffer. The model stores a copy of its contents. Nothing mutates the buffer after the reshape, so the stored values are the same.
- Ocio.SampleInBounds: stated at the program's resolution N = 32 rather than for every N. With N fixed, its real-valued bounds are linear facts. The layout lemmas (`Ocio.AtlasAt`, `Ocio.SampleAtGridPoint` and their helpers) hold for every N.
- Ocio.ColumnInRange: stated at N = 32 only, for the same reason.
- Ocio.TileInRange: stated at N = 32 only, for the same reason.
- Ocio.RowInTile: stated at N = 32 only, for the same reason.
- Ocio.LinspaceIncreasing: stated for the 32-point grid only, for the same reason.
- The rest of the preview loop in `python/preview.py` is not modelled:
  - window and trackbar creation;
  - camera capture and its properties;
  - timing counters;
  - the display call.
  The same goes for `python/device.py`, `python/utils.py`, `python/main.py` and `python/config.py`. These are UI, I/O and configuration, not part of the colour pipeline.
- The trackbar positions are parameters of `Preview.ReadSliders`. The UI that produces them is not modelled.
