# Options surface: chain transformer and scatter-plot geometry

This project models the computational core of a small options-visualisation
web page. The page downloads an option chain for a ticker and shows it as a
3D scatter plot. The x axis is days until expiration, the y axis is the
strike, and the z axis is one chosen metric (mark price, intrinsic or
extrinsic value, or one of the greeks).

The model covers two parts.

- **The option-chain transformer** (`app/page.tsx`). This part has three
  steps.
  - Grouping: the downloaded records are split into a call map and a put
    map, each going expiration → strike → metrics. Intrinsic and extrinsic
    value are computed per record.
  - `filterData`: picks one side and keeps an inclusive window of
    expirations and strikes.
  - `mungeData`: flattens the window into three parallel columns, sorted
    by expiration and then by strike.
- **The scatter plot's arithmetic** (`app/ScatterPlot.tsx`). This part
  covers:
  - the per-axis rescaling of the points into the cube [-10, 10]³, keeping
    the original samples;
  - the hue of each point;
  - the current-price plane and the grid placed on it;
  - the two translucent boxes below and above that plane;
  - the fill of the interleaved position and colour buffers.

Arithmetic is exact:

- Expirations are millisecond timestamps (`int`).
- Strikes are integer cents. The source keys strikes by their
  two-decimal rendering, so cents identify them exactly.
- Prices, metrics and plot coordinates are `real`.
- The current time is a parameter `nowMs`.
- The graphics library's HSL → RGB conversion is a parameter
  `toRgb: Hsl -> Rgb`.

Files:

- `ordered_keys.dfy`, module `OrderedKeys`: the ascending order of a set
  of numeric keys. It holds the ghost specification `Ascending`, its
  properties, and the selection sort `SortAscending` proved equal to it.
  `mungeData` sorts expiration keys and strike keys this way.
- `option_chain.dfy`, module `OptionChain`: models `app/page.tsx`.
  - `FetchOptionPremiums`, `FilterData` and `MungeData` keep the loops
    and the lazy creation of map entries of the source.
  - Each is proved equal to a specification function: `GroupSide`,
    `Window`, and `Flattened` over `Rows`.
  - The lemmas state what those functions guarantee.
- `scatter_plot.dfy`, module `ScatterPlot`: models `app/ScatterPlot.tsx`.
  - The normaliser, hue, price plane and boxes are functions.
  - The buffer fill is a loop over two fresh arrays.
  - The scene is a class whose grid position a method moves.

## Model

| member | source | states |
|---|---|---|
| OrderedKeys.AscendingSpec | app/page.tsx:283-285 | The ascending listing of a key set has one entry per key, holds exactly the keys, and is strictly increasing. |
| OrderedKeys.AscendingUnique | app/page.tsx:293-295 | Any strictly increasing sequence with the same elements as a key set equals its ascending listing, so the sorted order of distinct keys is unique. |
| OrderedKeys.SortAscending | app/page.tsx:283-285 | Sorting the keys with a numeric comparator yields exactly the ascending listing of the key set. |
| OrderedKeys.MinExists | app/page.tsx:293-295 | Every non-empty finite key set has a least key. |
| OptionChain.Intrinsic | app/page.tsx:231-236 | Intrinsic value is never negative. For a call it is max(0, price − strike), for a put max(0, strike − price), and 0 for any other type. |
| OptionChain.MetricsOf | app/page.tsx:238-249 | Intrinsic plus extrinsic equals the mark for every record. Extrinsic never exceeds the mark. The greeks are copied unchanged. |
| OptionChain.Store | app/page.tsx:253-256 | Storing under (expiration, strike) creates the expiration if missing. It adds exactly that entry with the new metrics and leaves every other entry unchanged. |
| OptionChain.GroupSide | app/page.tsx:252-262 | A side's map never holds an expiration without strikes. |
| OptionChain.GroupSideEntries | app/page.tsx:252-262 | A side's map has an entry at (expiration, strike) exactly when some record of that side has them. Records of the other side or of any other type never land in it. |
| OptionChain.GroupSideLastWins | app/page.tsx:252-262 | The stored metrics are those of the last record with that side, expiration and strike. |
| OptionChain.FetchOptionPremiums | app/page.tsx:218-265 | After the loop over the records, the call map and the put map equal the grouping of the records by side, and the current price is kept. |
| OptionChain.WindowSpec | app/page.tsx:324-337 | An entry is in the window exactly when its expiration is in [start, end] and its strike in [from, to], both ends included. A kept entry carries the very metrics of the input. No expiration is left without strikes. |
| OptionChain.WindowOfStep | app/page.tsx:324-338 | Visiting one more expiration adds it to the result exactly when it is in the date window and keeps at least one strike. |
| OptionChain.KeptStep | app/page.tsx:327-336 | Visiting one more strike adds it to the expiration's result exactly when it is in the strike range. |
| OptionChain.AddStrike | app/page.tsx:332-335 | Creating the expiration on its first kept strike and then storing the strike gives the expiration exactly the strikes kept so far. |
| OptionChain.FilterData | app/page.tsx:309-341 | The nested loops return exactly the window of the call map when the option type is "call", and of the put map for any other type. |
| OptionChain.DaysTilExpiration | app/page.tsx:288-291 | Days until expiration is the ceiling of the time difference in days: the least d with expiry − now ≤ d days. It is at most 0 for an expiration already past, and negative once a full day or more has passed. |
| OptionChain.ExpiryRowsSpec | app/page.tsx:293-297 | The rows of one expiration are exactly its strikes, in ascending order. |
| OptionChain.RowsOfSpec | app/page.tsx:287-305 | For expirations in increasing order, the rows hold exactly their strikes, sorted by expiration and then by strike. |
| OptionChain.RowsSpec | app/page.tsx:276-305 | mungeData's rows are exactly the (expiration, strike) entries of the input, each once, sorted by expiration and then by strike. There are as many rows as entries, and none for an empty input. |
| OptionChain.MungeData | app/page.tsx:272-308 | The axes are named "Days Til Expiration", "Strike Price" and the metric. The three columns have one value per row. Row k holds the ceiling days to its expiration, its strike and the chosen metric of that entry, so rows of one expiration share one x. |
| OptionChain.PlottedWindow | app/page.tsx:107-118 | The rows plotted from a filtered side are exactly the entries of that side whose expiration and strike lie in the windows. |
| ScatterPlot.Min | app/ScatterPlot.tsx:51-56 | The minimum of an axis is one of its samples and no sample is below it. |
| ScatterPlot.Max | app/ScatterPlot.tsx:51-56 | The maximum of an axis is one of its samples and no sample is above it. |
| ScatterPlot.SpreadBounds | app/ScatterPlot.tsx:51-61 | An axis with two different samples has its minimum strictly below its maximum, so the rescaling divides by a positive range. |
| ScatterPlot.FractionProperties | app/ScatterPlot.tsx:78 | The fraction (v − min)/(max − min) is 0 exactly at min and 1 exactly at max. It lies in [0, 1] inside the range and outside it otherwise, and keeps order in both directions. |
| ScatterPlot.NormalizeProperties | app/ScatterPlot.tsx:59-61 | Rescaling sends exactly min to −10 and exactly max to +10. It keeps [min, max] inside [−10, 10] and everything else outside, and it is monotone in both directions. |
| ScatterPlot.NormalizeAxis | app/ScatterPlot.tsx:58-61 | One rescaled value per sample. |
| ScatterPlot.NormalizeAxisProperties | app/ScatterPlot.tsx:51-61 | Every rescaled sample lies in [−10, 10]. Exactly the least samples map to −10 and the greatest to +10. Two samples compare as their rescaled values do. |
| ScatterPlot.NormalizeData | app/ScatterPlot.tsx:58-65 | One point per x sample. Each point keeps the original x, y and z of its index, and its coordinates are that index's rescaled samples. |
| ScatterPlot.NormalizedPointsInCube | app/ScatterPlot.tsx:50-66 | Every point lies in the cube. Each axis's extreme samples sit exactly on its faces. Each coordinate orders the points as the original samples do. |
| ScatterPlot.HueProperties | app/ScatterPlot.tsx:75-80 | The hue is 0.7 exactly at the least z sample and 0 exactly at the greatest. It stays in [0, 0.7] within that range and falls exactly when the value rises. |
| ScatterPlot.HueFollowsNormalizedZ | app/ScatterPlot.tsx:75-80 | A point's hue equals 0.035 · (10 − its normalised z): blue at the bottom face, red at the top. |
| ScatterPlot.PricePlaneMatchesPoints | app/ScatterPlot.tsx:110-113 | The price plane uses the strike axis's rescaling. A price equal to a strike sample sits at that point's height. The lowest or highest strike sits on the floor or the ceiling. A price in the strike range stays in the cube. |
| ScatterPlot.LowerBox | app/ScatterPlot.tsx:139-150 | The lower box spans heights exactly [−10, p], is 20 wide and deep, and is centred on the vertical axis. |
| ScatterPlot.UpperBox | app/ScatterPlot.tsx:124-135 | The upper box spans heights exactly [p, 20], is 20 wide and deep, and is centred on the vertical axis. |
| ScatterPlot.BoxesMeetAtPricePlane | app/ScatterPlot.tsx:110-150 | The two boxes meet at the price plane without overlap and cover [−10, 20]. For a price in the strike range, neither box is inverted. |
| ScatterPlot.FillBuffers | app/ScatterPlot.tsx:72-91 | Both fresh buffers have length 3n. Slots 3i, 3i+1, 3i+2 hold point i's coordinates in one buffer and the RGB of its original z's colour in the other. |
| ScatterPlot.Scene.constructor | app/ScatterPlot.tsx:58-150 | Building the scene places the normalised points, the grid at the price plane, and the lower and upper boxes for that plane. |
| ScatterPlot.Scene.RepositionGrid | app/ScatterPlot.tsx:296-303 | The price effect sets only the grid's height, to the price plane. Nothing else in the scene changes. |
| ScatterPlot.RenderPlot | app/ScatterPlot.tsx:34-303 | After building the scene and its buffers and running the price effect, the grid is at the price plane, which is exactly where the two boxes meet. |

## Left out

- Network I/O is left out. This covers `fetchQuote`, the HTTP request and error handling in `fetchOptionPremiums`, and the symbol search widget. The model starts from the parsed list of records.
- The React page state, its effects, and the default date and strike window are left out. The window defaults depend on the wall clock and on ISO date slicing.
- Three.js rendering is left out: the renderer, camera, orbit controls, raycasting tooltips, the animation loop, axis labels (`addLabel`) and the hard-coded box colours. The HSL → RGB conversion is a parameter.
- The number formatting helpers in `util.tsx` are not part of this model, nor is the rounding of the current price to five significant digits before it reaches the plot.
- Parsing of date strings and of numbers is not modelled. Expirations arrive as timestamps and strikes as integer cents.
- Two spellings of one date are distinct keys in the source but one timestamp here.
- A strike with more than two decimals is rounded in its key (`toFixed(2)`) but not in the intrinsic value. The model assumes strikes are whole cents.
- IEEE double and `Float32Array` rounding are not modelled. The arithmetic is exact.
- NaN is not modelled. It arises from empty or malformed filter bounds, where every comparison fails and nothing is kept, and from an empty or constant plot axis, where min equals max or `Math.min()` gives Infinity.
- ScatterPlot.NormalizeData: requires every non-empty axis to have two different samples. The source divides by zero and yields NaN coordinates there.
- ScatterPlot.Scene.constructor: requires non-empty plot input with a spread on every axis. With zero rows the source's price plane is NaN.
- The z axis name is the metric's property name. An unknown metric name cannot arise, because the metric is an enumeration. The source would read `undefined`, not fail.
- Expiration bounds are compared as millisecond timestamps, as the code compares them, not rounded to whole days.
- The iteration order of JavaScript object keys is not modelled. `filterData` is modelled as visiting keys in an arbitrary order, which does not affect its resulting map.
