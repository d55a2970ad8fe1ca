# runx, modelled in Dafny

runx is a small set of helpers for PyTorch training scripts. This project
models five of them and proves properties of each:

- `dotdict` and `BaseConfig.to_dict` in `runx/config.py` are modelled in
  `config.dfy`, module `Config`. A Python dict is an ordered list of items
  with unique keys (`dicts.dfy`, module `OrderedDicts`).
- The meters in `runx/meter.py` are modelled in `meter.dfy`, module
  `Meter`:
  - `check_type` turns the tensor elements of a list or dict into numbers.
  - `AverageMeter` keeps a running sum and count.
  - `MovingAverageMeter` keeps an exponentially weighted average.

  Each meter class has its fields and methods. A specification function
  (`AvgAdd`, `MovAdd`) gives the state after each call, including the
  partial update Python leaves behind when `add` raises part-way.
- `SumX` in `runx/sumx.py` is modelled in `sumx.dfy`, module `SumX`:
  - The forward hook `_summary_hook`, which records one entry per
    summarised layer and folds a BatchNorm2d into the Conv2d entry before it.
  - The totals `print_info` prints.
  - `_register_hook`, the naming loop of `summarize`, and `clear`.

  Tensor sizes are shared with the drawing code (`shapes.dfy`, module
  `Shapes`).
- `draw_box`, `draw_point` and their single-image workers in `runx/draw.py`
  are modelled in `draw.dfy`, module `Draw`:
  - An image is a flat `array<int>`. One image of a batch is stored from
    `k * (C*H*W)`.
  - `raster.dfy`, module `Raster`, holds the CHW and HWC index arithmetic:
    where channel `c` of pixel (y, x) lives, and the proof that every flat
    position holds exactly one pixel channel.
  - Every drawing method states the value of every array element afterwards,
    through `BoxPixel` and `PointPixel`.
- `dict_to_md` in `runx/logx.py` is modelled in `logx.dfy`, module `LogX`.

`wrappers.dfy` holds `Option` and `Result`.

Two behaviours of the code are worth stating plainly:

- `dotdict.__getattr__` is `dict.get`, so reading a missing attribute gives
  `None`. It does not raise. Names the class itself provides (`keys`,
  `items`, `__class__`, ...) are found before `__getattr__` is consulted.
- `_summary_hook` evaluates `self.layers[-1]` for every BatchNorm2d before
  it looks at `self.fusion`. A BatchNorm2d seen while no layer is recorded
  therefore raises `IndexError` whatever `fusion` is.

## Model

| member | source | states |
|---|---|---|
| OrderedDicts.Get | runx/config.py:6 | `get` finds a value exactly when the key is present |
| OrderedDicts.GetAt | runx/config.py:6 | in a dict, `get` of an item's key returns that item's value |
| OrderedDicts.PutGet | runx/config.py:7 | after `d[k] = v`, `k` reads `v` and every other key reads as before |
| OrderedDicts.PutKeys | runx/config.py:7 | assigning to a present key keeps the key order; assigning to a new key appends one item |
| OrderedDicts.PutUnique | runx/config.py:7 | assignment keeps keys unique |
| OrderedDicts.PutPut | runx/config.py:7 | of two assignments to one key, the second wins and the key is stored once |
| OrderedDicts.RemoveGet | runx/config.py:8 | after `del d[k]`, `k` is absent and every other key reads as before |
| OrderedDicts.RemoveSize | runx/config.py:8 | deleting a present key removes one item; an absent key changes nothing |
| OrderedDicts.RemoveUnique | runx/config.py:8 | deletion keeps keys unique |
| Config.DotDict.constructor | runx/config.py:4-5 | a `dotdict` starts with the given items |
| Config.DotDict.GetAttr | runx/config.py:4-6 | a name of `dict` or of the class (`DictAttributes`) reads the class attribute; any other missing name reads as `None`; a present key reads the value stored beside it |
| Config.DotDict.SetAttr | runx/config.py:7 | the item is assigned; the attribute then reads the new value unless the class provides that name, every other key keeps its value, and keys stay unique |
| Config.DotDict.DelAttr | runx/config.py:8 | `KeyError` exactly when the key is absent; otherwise the key is gone and every other key keeps its value |
| Config.Converted | runx/config.py:15-20 | callables are stored by name, numpy arrays as their lists, anything else unchanged |
| Config.ToDict | runx/config.py:11-21 | the loop builds exactly `Exporting(attrs)` |
| Config.ExportingKeys | runx/config.py:13-14 | the output keys are the exported attribute keys, in attribute order |
| Config.ExportedKeysFrom | runx/config.py:13-14 | only keys of the attribute table are output |
| Config.ExportingHidesDunders | runx/config.py:14 | no output key starts with `__` or equals `to_dict` |
| Config.ExportingKeeps | runx/config.py:14-20 | every exported attribute appears, converted, in the output |
| Config.ExportingFrom | runx/config.py:13-20 | every output item is some attribute of the table, converted |
| Config.ExportingSnoc | runx/config.py:13-20 | one more attribute adds at most one item, at the end |
| Config.ExampleExport | examples/configs/config.py:3-8 | for the example `Config` class, `to_dict` gives `lr`, `batch_size`, `input_size`, `weights`, `list_path`, in that order, with their values |
| Config.GetFound | runx/config.py:6 | the value `get` returns sits beside its key |
| LogX.DictToMd | runx/logx.py:10-15 | the loop builds exactly `Markdown(d)`, one `key: value` line per item in item order |
| LogX.MarkdownEmpty | runx/logx.py:10-15 | the text is empty exactly when the dict is |
| LogX.MarkdownAppend | runx/logx.py:12-13 | the text of concatenated item lists is the concatenation of their texts |
| LogX.MarkdownAt | runx/logx.py:12-13 | item `i`'s line sits between the text of the items before it and the text of those after |
| LogX.MarkdownEndsWithBreak | runx/logx.py:13 | a non-empty text ends with the two-space Markdown line break |
| LogX.MarkdownLength | runx/logx.py:12-13 | the text is as long as the sum of key length + value length + 5 over the items |
| Meter.CheckType | runx/meter.py:15-32 | numbers pass unchanged; lists and dicts keep their length, keys and order, and every tensor element becomes its `item()` |
| Meter.AccumulateDictKeys | runx/meter.py:51-53 | adding a dict into a dict sum keeps the sum's keys, their order and their uniqueness |
| Meter.AccumulateDictSucceeds | runx/meter.py:51-53 | the dict add succeeds exactly when every key of the value is already in the sum |
| Meter.AccumulateDictGet | runx/meter.py:51-53 | after a successful dict add, each key's sum is its old sum plus the value's entry for it |
| Meter.AvgAdd | runx/meter.py:43-56 | the first add stores the value; a successful add counts one more and a failed one does not; scalars add up |
| Meter.AddList | runx/meter.py:49-50 | the list loop adds pointwise and fails exactly when the value is longer than the sum, having updated the first `len(sum)` entries |
| Meter.AddDict | runx/meter.py:52-53 | the dict loop has the effect of `AccumulateDict`, including the partial update before a `KeyError` |
| Meter.AvgAddValid | runx/meter.py:43-56 | `add` keeps the meter's invariant (a sum exactly when the count is positive), whether it succeeds or raises |
| Meter.AvgAddList | runx/meter.py:48-50 | a list add succeeds exactly when the value is no longer than the sum, and adds element by element |
| Meter.AvgRunScalars | runx/meter.py:43-56 | scalar adds to a scalar sum add their total and count each |
| Meter.AverageOfScalars | runx/meter.py:38-68 | from a reset meter, the value after adding v1..vn is (v1 + ... + vn) / n |
| Meter.AverageMeter.constructor | runx/meter.py:35-40 | a new meter is reset: count 0, no sum |
| Meter.AverageMeter.Reset | runx/meter.py:38-40 | count 0, no sum |
| Meter.AverageMeter.Add | runx/meter.py:43-56 | the new state and the exception raised are those `AvgAdd` gives for the converted value |
| Meter.AverageMeter.Value | runx/meter.py:58-68 | the sum divided by the count, element by element; `TypeError` before the first add |
| Meter.BlendDictKeys | runx/meter.py:89-91 | blending into a dict keeps its keys and their uniqueness |
| Meter.BlendDictSucceeds | runx/meter.py:89-91 | the dict blend succeeds exactly when every key of the value is a key of the last value |
| Meter.BlendDictGet | runx/meter.py:89-91 | after a successful blend, each key of the value holds gamma * last + (1 - gamma) * value, and every other key keeps its current entry |
| Meter.MovAdd | runx/meter.py:81-95 | the first add stores the value; a successful add counts one more and leaves last equal to current, a failed one changes neither the count nor last; scalars blend |
| Meter.MovAddDict | runx/meter.py:81-95 | a dict `add` after the first succeeds exactly when every key is in the last value, and then each key of the value is blended and the others keep their entries |
| Meter.MovAddValid | runx/meter.py:81-95 | `add` keeps the moving meter's invariant, whether it succeeds or raises |
| Meter.MovRun | runx/meter.py:81-95 | any sequence of adds keeps the invariant |
| Meter.BlendBetween | runx/meter.py:93 | with a weight in [0, 1], a blend lies between the bounds of its two inputs |
| Meter.MovRunScalars | runx/meter.py:81-95 | scalar adds keep the current value within the bounds of all values seen |
| Meter.MovingAverageBounded | runx/meter.py:71-98 | from a reset meter, the moving average of values within [lo, hi] stays within [lo, hi] |
| Meter.MovingAverageConstant | runx/meter.py:71-98 | adding the same number again and again leaves the moving average at that number |
| Meter.BlendListInto | runx/meter.py:87-88 | the list loop blends pointwise and fails exactly when the value is longer than the last value |
| Meter.BlendDictInto | runx/meter.py:90-91 | the dict loop has the effect of `BlendDict`, including the partial update before a `KeyError` |
| Meter.MovingAverageMeter.constructor | runx/meter.py:71-73 | keeps `gamma` and starts reset |
| Meter.MovingAverageMeter.Reset | runx/meter.py:75-78 | no current or last value, count 0 |
| Meter.MovingAverageMeter.Add | runx/meter.py:81-95 | the new state and the exception raised are those `MovAdd` gives for the converted value |
| Meter.MovingAverageMeter.Value | runx/meter.py:97-98 | the current value, `None` exactly before the first add |
| Shapes.Numel3 | runx/draw.py:82 | a C x H x W image has C*(H*W) elements |
| Raster.ParseFormat | runx/draw.py:10-15 | `"CHW"` and `"HWC"` are the only formats accepted |
| Raster.GeometryOf | runx/draw.py:61-64 | CHW reads (channels, height, width) from the size, HWC reads (height, width, channels) |
| Raster.SizeOf | runx/draw.py:82 | either layout covers all the elements of the image |
| Raster.IdxInRange | runx/draw.py:72-80 | every pixel channel has a flat position inside the image |
| Raster.DecodeIdx | runx/draw.py:72-80 | decoding a pixel channel's flat position gives back the channel, row and column |
| Raster.IdxDecodeChw | runx/draw.py:73-75 | every position of a CHW image is the flat position of the pixel channel it decodes to |
| Raster.IdxDecodeHwc | runx/draw.py:77-80 | every position of an HWC image is the flat position of the pixel channel it decodes to |
| Raster.IdxDecode | runx/draw.py:72-80 | every position inside the image holds one pixel channel |
| Raster.IdxInjective | runx/draw.py:72-80 | two pixel channels never share a flat position |
| Draw.Clamp | runx/draw.py:18-21 | the result lies in [lo, hi] when lo <= hi and is hi otherwise; a value already inside is unchanged |
| Draw.Selected | runx/draw.py:4-6 | `boxes[valid_flags]` is no longer than `boxes` |
| Draw.SelectedMembers | runx/draw.py:4-6 | an item is selected exactly when some flagged position holds it |
| Draw.SelectedEmpty | runx/draw.py:4-6 | nothing is selected exactly when no flag is set |
| Draw.ClampBox | runx/draw.py:17-21 | the clamped corners lie in the image; a box already inside is unchanged |
| Draw.ClampBoxes | runx/draw.py:17-21 | every box is clamped |
| Draw.ClampBoxIdempotent | runx/draw.py:17-21 | clamping twice is clamping once |
| Draw.BoxPlan | runx/draw.py:4-22 | no flag set: nothing happens; unknown format: error; otherwise the clamped chosen boxes, which lie inside the image, and boxes are drawn only into an image with 3 channels and no empty side |
| Draw.BoxPlanShapeError | runx/draw.py:17-35 | any other error needs boxes left after the flags and is the error of the first box line |
| Draw.BoxShapeError | runx/draw.py:18-32 | no error exactly with 3 channels and no empty side; no rows gives an out-of-range index, otherwise too few or too many channels give a shape mismatch, and no columns an out-of-range index |
| Draw.BoxPlanUniform | runx/draw.py:4-22 | when one image of a batch fails, another that passed draws no box |
| Draw.Paint | runx/draw.py:27 | the three channels of one pixel get the colour, and nothing else changes |
| Draw.HLine | runx/draw.py:27-28 | row y over columns x0..x1-1 gets the colour, channel by channel, and nothing else changes |
| Draw.VLine | runx/draw.py:29-30 | column x over rows y0..y1-1 gets the colour, and nothing else changes |
| Draw.Outline | runx/draw.py:25-30 | exactly the pixels on the box's four edges get the colour |
| Draw.OnSomeBoxSnoc | runx/draw.py:24 | a pixel is on one of the first k+1 boxes exactly when it is on one of the first k or on box k |
| Draw.Outlines | runx/draw.py:24-35 | exactly the pixels on some box get their channel of the colour; every other element keeps its value |
| Draw.SingleDrawBox | runx/draw.py:3-38 | raises the plan's error with the image untouched, or leaves every element as `BoxPixel` gives it |
| Draw.ChwLine | runx/draw.py:22-30 | a CHW line assignment broadcasts exactly when the image has 3 channels, and gives channel c colour component c |
| Draw.HwcLineAsWritten | runx/draw.py:22-35 | the HWC line assignment as written broadcasts exactly when the line has 3 pixels, and gives pixel i component i in every channel |
| Draw.HwcFiveWideBoxRaises | runx/draw.py:32 | the 5-pixel top line of box (0, 0, 5, 5) in a 10 x 10 HWC image cannot broadcast |
| Draw.HwcThreeWideMixesChannels | runx/draw.py:32 | a 3-pixel HWC line puts the red component into the green channel of its first pixel |
| Draw.FirstError | runx/draw.py:45-47 | no error exactly when every plan from k on passes; a failing plan at k gives its own error |
| Draw.FirstErrorSkips | runx/draw.py:45-47 | plans that pass do not change the first error |
| Draw.FirstBoxError | runx/draw.py:45-47 | no error exactly when every batch item from k on plans successfully; a failing item k gives its own error |
| Draw.BoxItemsBlank | runx/draw.py:45-47 | when one box item fails, every item that passed draws nothing |
| Draw.BoxesDrawnStep | runx/draw.py:45-47 | drawing item k into its own slice extends the first k items drawn to k + 1 and leaves the rest of the batch alone |
| Draw.BoxesDrawnBlank | runx/draw.py:45-47 | items that drew nothing leave the batch as it was |
| Draw.DrawBoxItem | runx/draw.py:46-47 | one pass of the loop raises item k's error with the whole batch untouched, which is then the first error of the batch, or draws item k and keeps the loop invariant |
| Draw.DrawBoxBatch | runx/draw.py:43-47 | the batch raises the first item's error with the image untouched, or draws each item with its own boxes, flags and `format[1:]` |
| Draw.DrawBox | runx/draw.py:40-51 | dispatches a 3-d image with a 3-letter format to one drawing and a 4-d one with a 4-letter format to the batch; anything else raises with the image untouched |
| Draw.Trunc | runx/draw.py:69 | `.long()` truncates toward zero |
| Draw.ToPixels | runx/draw.py:68-69 | every point is scaled from [-1, 1] to pixels and truncated |
| Draw.ToPixelInImage | runx/draw.py:68-69 | a coordinate in [-1, 1) lands on a pixel of the image |
| Draw.ColumnInImage | runx/draw.py:68-69 | an x coordinate in [-1, 1) lands on a column of the image |
| Draw.RowInImage | runx/draw.py:68-69 | a y coordinate in [-1, 1) lands on a row of the image |
| Draw.ToPixelCentre | runx/draw.py:68-69 | the centre (0, 0) lands on pixel (width / 2, height / 2) |
| Draw.ClampPoint | runx/draw.py:70-71 | x lies in [1, width-2] and y in [1, height-2]; a point already there is unchanged |
| Draw.ClampPoints | runx/draw.py:70-71 | every point is clamped |
| Draw.OnPlusOffsets | runx/draw.py:73 | the five index blocks name exactly the pixels of the plus: centre, above, below, left, right |
| Draw.Group | runx/draw.py:73 | one block has one index per point |
| Draw.Indices0 | runx/draw.py:73 | `indices0` has five indices per point |
| Draw.Shift | runx/draw.py:74-75 | adding an offset keeps the length and shifts each index |
| Draw.Scale | runx/draw.py:78 | multiplying by the channel count keeps the length and scales each index |
| Draw.IndicesOffsets | runx/draw.py:72-80 | channel c's indices are `indices0` moved to channel c, position by position |
| Draw.Indices0Members | runx/draw.py:73 | an index is in `indices0` exactly when it is y*width + x of a plus pixel of some point |
| Draw.OffsetIsIdx | runx/draw.py:72-80 | moving pixel (y, x) to channel c gives the flat position of that pixel channel |
| Draw.IndicesArePlusIndices | runx/draw.py:72-80 | every index of channel c is channel c of a plus pixel |
| Draw.PlusIndicesAreIndices | runx/draw.py:72-80 | channel c of every plus pixel is an index of channel c |
| Draw.IndicesMembers | runx/draw.py:72-80 | the indices of channel c are exactly channel c of the plus pixels |
| Draw.PlusIndexDecode | runx/draw.py:72-80 | a position is channel c of a plus pixel exactly when it lies in the image and decodes to one |
| Draw.PointIndicesInRange | runx/draw.py:82-86 | every index `index_fill_` receives lies inside the image |
| Draw.PointPlan | runx/draw.py:54-71 | no flag set: nothing happens; unknown format: error (and only then); otherwise the chosen points, scaled, truncated and clamped |
| Draw.PlanPointsInside | runx/draw.py:70-71 | in an image of at least 3 x 3 pixels the clamped points keep their pluses inside the image |
| Draw.IndexFill | runx/draw.py:84-86 | exactly the listed positions get the value |
| Draw.FillMembers | runx/draw.py:72-86 | a position is filled for channel c exactly when it is channel c of a plus pixel |
| Draw.FillsGivePixel | runx/draw.py:84-86 | the three fills together give every element its `PointPixel` value |
| Draw.SingleDrawPoint | runx/draw.py:53-88 | raises the format error with the image untouched, or leaves every element as `PointPixel` gives it |
| Draw.FirstPointError | runx/draw.py:95-97 | no error exactly when every batch item from k on plans successfully; a failing item k gives its own error |
| Draw.PointItemsBlank | runx/draw.py:95-97 | when one point item fails, every item that passed was skipped by its flags |
| Draw.PointsDrawnStep | runx/draw.py:95-97 | drawing item k into its own slice extends the first k items drawn to k + 1 and leaves the rest of the batch alone |
| Draw.PointsDrawnBlank | runx/draw.py:95-97 | skipped items leave the batch as it was |
| Draw.DrawPointItem | runx/draw.py:96-97 | one pass of the loop raises item k's error with the whole batch untouched, which is then the first error of the batch, or draws item k and keeps the loop invariant |
| Draw.DrawPointBatch | runx/draw.py:93-97 | the batch raises the first item's error with the image untouched, or draws each item with its own points, flags and `format[1:]` |
| Draw.DrawPoint | runx/draw.py:90-101 | dispatches by image rank and format length like `draw_box`; anything else raises with the image untouched |
| SumX.WeightFlops | runx/sumx.py:62-71 | Conv2d FLOPs are out-channels x out-height x out-width x in-channels x kernel size and Linear FLOPs are the weight's two sizes multiplied; an unpacking of the wrong rank raises `ValueError` |
| SumX.NewLayer | runx/sumx.py:53-87 | the record's `param_num` is weight plus bias elements, its FLOPs add the bias elements, `trainable` exists exactly with a weight, and it fails only on a bad unpacking |
| SumX.BuildLayer | runx/sumx.py:54-86 | builds exactly `NewLayer` |
| SumX.Fuse | runx/sumx.py:34-51 | only the Conv2d record's weight, bias and output change; a BatchNorm2d without affine parameters or running statistics raises `TypeError` |
| SumX.Hook | runx/sumx.py:22-87 | skipped modules leave the records alone; a BatchNorm2d with no records raises `IndexError`; a fusion rewrites only the last record; otherwise exactly one record is appended |
| SumX.HookValid | runx/sumx.py:62-77 | the hook keeps `trainable` present exactly on records with a weight |
| SumX.TrainableAtMostTotal | runx/sumx.py:123-130 | the trainable count never exceeds the total, so the non-trainable count is not negative |
| SumX.WeightlessNotTrainable | runx/sumx.py:73-76 | records without a weight never count as trainable |
| SumX.TotalsReplace | runx/sumx.py:112-126 | replacing a record by one with the same counts keeps all totals |
| SumX.TotalsAppend | runx/sumx.py:112-126 | an appended record adds its own counts to the totals |
| SumX.HookTotals | runx/sumx.py:22-87 | a fusion changes no total; an appended record adds its parameters and FLOPs |
| SumX.NamesFrom | runx/sumx.py:90-91 | the names map holds the old identities and those of every named module |
| SumX.NamesFromLast | runx/sumx.py:90-91 | a module is known by the name of the last pair that mentions it |
| SumX.SumX.constructor | runx/sumx.py:10-16 | no hooks, no records, no names, and the given settings |
| SumX.SumX.NameModules | runx/sumx.py:90-91 | the names map becomes `NamesFrom` of the old one; nothing else changes |
| SumX.SumX.SummaryHook | runx/sumx.py:22-87 | the records become what `Hook` gives, or stay and the error is returned; nothing else changes |
| SumX.SumX.PrintInfo | runx/sumx.py:112-130 | total, trainable and non-trainable parameters and total FLOPs are the sums over the records, and the non-trainable count is not negative |
| SumX.SumX.RegisterHook | runx/sumx.py:18-20 | the handle is appended to the hooks; nothing else changes |
| SumX.SumX.Clear | runx/sumx.py:161-166 | no hooks, no records, no names; the settings stay |

## Left out

- File and console I/O are not modelled:
  - `BaseConfig.to_json` and `load_json_config`.
  - `LogX`'s directories, log file, checkpoints and TensorBoard writer.
  - The tables `print_info` prints, and `print_range`.

  Only the values they compute from are modelled: `dict_to_md`'s text and
  `print_info`'s totals.
- Values reach `dict_to_md` already rendered by `str`. Python's formatting of
  each value type is not modelled.
- `Meter.AverageMeter.Add`, `Meter.MovingAverageMeter.Add`: sums, averages and
  blends are exact reals, not IEEE doubles. Rounding and NaN are not modelled,
  and the moving-average bounds are proved for reals.
- `Meter.CheckType`: `tensor.item()` is taken as the number a one-element
  tensor holds. numpy scalars and multi-element tensors are not modelled.
- `Meter.AverageMeter.Value`: division by the count happens only when a sum
  exists. The source's `None / float(count)` on a fresh meter is the
  `TypeError` result.
- `SumX.Fuse`: the fused weight and bias are kept as symbolic terms (`Fused`,
  `FusedBias`) that name the BatchNorm2d they fold in. The arithmetic of lines
  41-47 on tensors is not modelled.
- `SumX.SumX.SummaryHook`: the forward pass of `summarize`, `model.apply` and
  hook removal through handles are left to the caller. A handle is an opaque
  number and `Clear` forgets them.
- `Draw.SingleDrawPoint`, `Draw.DrawPoint`: these require an image of at
  least 3 x 3 pixels and at least 3 channels whenever there are points to
  draw (`PointsFit`). The source behaves differently on the images this
  excludes, and none of those cases is modelled:
  - With a width or height below 3, the clamp bounds of lines 70-71 cross.
    The source can then draw misplaced pixels without raising. For example,
    with width 2, x clamps to 0 and the left neighbour `y*width - 1` is the
    last pixel of the row above. Other sizes give indices outside the image.
  - An HWC image with 2 channels never raises. The `+2` offset of line 80
    writes the blue component into the next pixel's first channel.
  - An HWC image with 1 channel can raise. For a point clamped to
    (width-2, height-2), the lower neighbour's index plus 2 is one past the
    end of the image, so `index_fill_` on line 86 fails. Otherwise the `+1`
    and `+2` offsets write into the following pixels.
- `Draw.ToPixels`: the scaling is done in exact reals. The source computes
  it in float32, so a coordinate whose product lies just below an integer
  can truncate to a pixel one lower than the model gives.
- `Meter.CheckType`: values are numbers, lists of numbers and dicts of
  numbers. numpy arrays, which `add` sums element-wise, and tuples, which
  `+` would concatenate, are not modelled.
- `Config.Converted`: a callable is known by its `__name__`. A callable
  without one, such as a `functools.partial`, makes line 16 raise
  `AttributeError`; that case is not modelled.
- `Draw.DrawBox`, `Draw.DrawPoint`: one flag per item and one item list per
  batch item (`ArgsFit`) are preconditions. The source's own indexing errors
  for mismatched masks are not modelled.
- `Draw.SingleDrawBox`: box coordinates are integers, so `.long()` on boxes
  is the identity.
- Box clamping writes into the caller's box tensor in place. The model clamps
  a copy, so that aliasing is not captured.
- Pixel values and colour components are integers. `image.new_tensor(color)`
  dtype conversion is not modelled.
- An image is assumed contiguous, so `reshape(-1)` is a view onto the same
  storage as the flat array.
- `Draw.BoxPlan`, `Draw.BoxShapeError`, `Draw.SingleDrawBox`, `Draw.DrawBox`:
  HWC boxes follow the evidently intended per-channel colour rather than the
  broadcast as written; see Findings. In HWC the model therefore raises the
  shape error when the image does not have 3 channels. The source as written
  raises it when a line is not exactly 3 pixels long, whatever the channel
  count.

## Findings

| source | as written | input that shows it | evidently intended | confidence | as-written member | corrected member |
|---|---|---|---|---|---|---|
| runx/draw.py:22-35 | HWC lines assign `color.view(3, 1)` to an `n` x `C` slice, which broadcasts only when `n == 3` and then paints pixel i with component i in every channel | an HWC 10 x 10 x 3 image and box (0, 0, 5, 5): the top line has 5 pixels and the assignment raises; with a 3-pixel line and `color.r != color.g`, the first pixel's green channel gets red | each pixel of the line gets the colour channel by channel, as the CHW branch does | not executed | Draw.HwcLineAsWritten | Draw.SingleDrawBox |
