# Product annotator: suggestion filter, label composer and dataset accumulator

This is a Dafny model of the core of a small product-labelling tool. A user uploads
a product photo and an OCR reader proposes text strings. The tool offers the strings
longer than a configured minimum length as suggestions. The user clicks suggestions
to compose a label, and submits the (image path, label) pair. The pair is then
appended to an in-memory table shared by the whole process. The table is saved
as a whole to a file named after the current second, both as a fallback when an
append fails and when the process is interrupted.

The model has four modules:

- `Suggestions` (suggestions.dfy) covers `process_image`. The OCR output is an input,
  either `Extracted(results)` or `Raised(message)`. `MIN_TEXT_LENGTH` is an `int`
  parameter. `Filter` is the list comprehension, written as a recursive function.
  `IsSubsequence` is the independent definition of "keeps order".
- `Labels` (labels.dfy) covers `" ".join` as the recursive `Join`. Its partner is
  `Split`, which models `str.split(" ")`.
- `Dataset` (dataset_generator.dfy) covers `DatasetGenerator`. It is a class whose
  `rows: seq<Row>` field is the table. `AddLabel` reassigns that field.
  `SaveDataset` modifies nothing and returns the `Snapshot` it writes: the path
  and the rows. `DatasetFilepath` assembles the path from an already formatted
  timestamp, and `TimestampOf` reads the timestamp back.
- `Annotator` (product_annotator.dfy) covers the `ProductAnnotator` session. It is a
  class with the per-session `labels: seq<string>` field and a `dataset` reference.
  The source makes `dataset` a class attribute, so every instance shares one
  generator. Dafny has no static mutable fields, so a `Process` object holds that
  one generator and creates every session through `NewSession`, which hands the
  same generator to each `ProductAnnotator` it builds.
  `SubmitLabel` takes two flags from the environment. `addRaises` says whether
  the append raised. `writeRaises` says whether the fallback save's file write
  raised.

Two consequences of the source's structure that the model states:

- If the fallback save's write raises, that error leaves `submit_label`, because
  `save_dataset` runs inside the `except` block (src/product_annotator.py:64-70).
  The model has an `Escaped` outcome for it.
- The interrupt handler builds a fresh `ProductAnnotator()` (src/product_annotator.py:23).
  `dataset` is a class attribute (src/product_annotator.py:30), so that instance
  refers to the live shared table and every row is written. In the model the
  class attribute is the `dataset` field of one `Process` object, every session
  is created by `Process.NewSession`, and `InterruptFlush` creates its session
  the same way (`InterruptFlush`, `SessionsShareTable`).

## Model

| member | source | states |
|---|---|---|
| Suggestions.Filter | src/product_annotator.py:40 | every kept string occurs in the OCR results and is strictly longer than the minimum; every OCR string longer than the minimum is kept; the result is no longer than the input |
| Suggestions.BoundaryExcluded | src/product_annotator.py:40 | a string whose length equals the minimum is not offered (the comparison is strict) |
| Suggestions.FilterIsSubsequence | src/product_annotator.py:40 | the suggestions are an order-preserving subsequence of the OCR results |
| Suggestions.FilterCount | src/product_annotator.py:40 | each string appears in the suggestions exactly as often as in the OCR results if it is longer than the minimum, and never otherwise (duplicates kept, nothing else added) |
| Suggestions.ProcessImage | src/product_annotator.py:36-47 | if the extractor raised, the result is the empty list; otherwise the result is an order-preserving subsequence holding exactly the long results with their multiplicities |
| Annotator.ColaDietExample | src/product_annotator.py:40 | OCR output ["Co", "Cola", "Diet"] with minimum 2 gives the suggestions ["Cola", "Diet"] |
| Labels.Join | src/product_annotator.py:52 | joining no labels gives ""; otherwise the length is the total length of the labels plus one space between each pair of neighbours, and the first label comes first |
| Labels.JoinAppend | src/product_annotator.py:51-52 | for non-empty a and b, joining a + b gives the join of a, one space, then the join of b, so earlier text stays unchanged as labels are added |
| Labels.SplitJoin | src/product_annotator.py:52 | for a non-empty list of labels none of which contains a space, splitting the joined text on spaces gives back exactly the labels picked, in order, duplicates included |
| Dataset.DatasetFilepath | src/dataset_generator.py:12-20 | the path is 17 characters longer than the timestamp, and the timestamp can be read back from it |
| Dataset.DatasetFilepathOf | src/dataset_generator.py:20 | every path of the form "datasets/" + t + ".parquet" is the path built from t |
| Dataset.SamePathIffSameTimestamp | src/dataset_generator.py:19-20 | two saves write the same path exactly when their timestamps are equal, as when they fall in the same second |
| Dataset.DatasetGenerator.constructor | src/dataset_generator.py:8-9 | a new generator's table is empty |
| Dataset.DatasetGenerator.AddLabel | src/dataset_generator.py:22-41 | the table becomes the old table followed by the one row (image path, label): one row longer, earlier rows unchanged and in order, no validation |
| Dataset.DatasetGenerator.SaveDataset | src/dataset_generator.py:43-55 | the snapshot holds exactly the table's rows at call time, at the path of the given timestamp; the table is not modified |
| Annotator.ProductAnnotator.constructor | src/product_annotator.py:32-33 | a new session has no picked labels and refers to the one shared table |
| Annotator.Process.constructor | src/product_annotator.py:30 | the process's one table is a new generator, created empty |
| Annotator.Process.NewSession | src/product_annotator.py:30-33 | every new session is a fresh object with no picks whose table is the process's one table |
| Annotator.ProductAnnotator.MergeLabels | src/product_annotator.py:49-52 | the picked labels become the old ones followed by the new picks; the result is all of them joined by single spaces, and it extends the previously shown label by one space and the new picks |
| Annotator.ProductAnnotator.ClearLabels | src/product_annotator.py:103 | the picked labels become empty |
| Annotator.ProductAnnotator.SubmitLabel | src/product_annotator.py:54-70 | a successful append grows the shared table by exactly (image path, label); a failed append leaves the table as it was and saves it at the timestamp's path; the error is absorbed exactly when that save's write succeeds |
| Annotator.ClearThenPick | src/product_annotator.py:103 | after clear, the next merge returns just the new picks joined by spaces |
| Annotator.PickColaThenDiet | src/product_annotator.py:49-52 | picking "Cola" and then "Diet" after a clear composes "Cola Diet" |
| Annotator.InterruptFlush | src/product_annotator.py:23 | the interrupt handler's fresh session, created like any other, saves the process's live table with all its rows |
| Annotator.SessionsShareTable | src/product_annotator.py:30 | rows submitted by two different sessions both land, in order, in the one table that a later flush writes |

## Left out

- The Gradio UI is not modelled: `build_ui`, the event wiring and `run` (src/product_annotator.py:72-141), and main.py. A button click becomes a direct method call.
- The OCR call is an input value (`Extraction`). This covers `TextExtractor`, easyocr, cv2 and the unused `TitleExtractor` in src/product_collector.py. `ProductAnnotator`'s constructor does not build an extractor.
- The clock is left out. `datetime.now().strftime("%Y-%m-%dT%H:%M:%S")` is passed in as the already formatted `timestamp` string.
- The Parquet encoding and the file write are left out. `SaveDataset` returns the rows and path it would write. Whether the write raises is the `writeRaises` flag of `SubmitLabel`. Because `SaveDataset` modifies nothing, a failed write cannot lose rows.
- Why an append might raise is not modelled. This covers the polars `vstack` schema rules, including the first stack onto the column-less `pl.DataFrame()`. The table is a plain sequence of rows, and an append failure is the `addRaises` flag.
- The rest of signal handling is left out: `signal.signal` registration and `sys.exit` (src/product_annotator.py:17-26). Only the save on interrupt is modelled, as `InterruptFlush`.
- Configuration (config.py) is left out: YAML loading, host/port, log sinks. All `logger.log` calls are left out as well, because they change no modelled state.
