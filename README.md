# Annotation converter: Pascal-VOC XML to newline-delimited JSON

This project is a Dafny model of `covert_ds_to_json_format.py`. That script turns per-image
object-detection annotations into one newline-delimited JSON file. Each input is an XML document
with a `filename`, a `size` block and zero or more `object` blocks, each of which holds a `name`
and a `bndbox`. The script has two parts, and each has a module here.

- `Converter` (`converter.dfy`) models `xml_to_custom_json`. It takes a document that has
  already been parsed, as a tree of datatypes. A child that `find` may not locate is an
  `Option`. The `object` children are a sequence in document order. The output is a `Record`
  with these fields:
  - `content`: `base_url + "/" + filename`.
  - `annotation`: one `Entry` per object. An entry has a one-element label list, empty
    `notes`, two corners divided exactly (as `real`) by the image size, and the image size
    repeated.
  - `extras`: null.
  The ways the script can raise that the model covers are each a `Failure` carrying an
  `Error`: a missing element, a text that `int` rejects, a division by a zero dimension, or a
  file that does not parse. A float overflow in the division is not covered (see "## Left out"). The
  reference function `Convert` is written by recursion. The method `XmlToCustomJson` is the
  script's loop, and it is proved equal to `Convert`. The lemmas state the properties of
  `Convert` against independent descriptions: `Convertible` for well-formed input and
  `Describes` for the entry an object must give.
- `Aggregator` (`aggregator.dfy`) models `process_all_annotations_to_single_json`. The
  directory listing is a sequence of `DirEntry` values. Each one is a name plus the parsed
  document, or `None` when the file does not parse.
  - The `.xml` filter is the function `XmlFiles`.
  - The conversion loop is `CollectAnnotations`, proved equal to the reference function
    `ConvertFiles`.
  - The output file is a class `OutputFile`. Its `chunks` field is what has been written:
    serialised records (`Dump`) and text.
  - `ProcessAllAnnotationsToSingleJson` converts first and opens the file only after every
    conversion has succeeded. On failure the file keeps its old contents. On success it holds
    `NdJson(records)`, which is each record followed by `"\n"`. `ReadBack` recovers the records
    from that layout.
  - The script's function holds both loops. Here each loop is its own method
    (`CollectAnnotations`, `WriteAnnotations`), and `ProcessAllAnnotationsToSingleJson` calls
    them in that order.
- `Wrappers` (`wrappers.dfy`) holds the `Option` and `Result` types. `Result` supports `:-`.

The script's behaviour differs from what one might expect in these points, and the model does what the script does:

- An empty `<filename/>` element does not make the conversion fail. Its `.text` is `None`, and
  formatting it gives the content `base_url + "/None"`.
- An empty `<name/>` gives the label list `[null]`. It is not an error.
- The dimensions are not checked to be positive. A zero width or height raises only when there
  is at least one object, because the division happens inside the loop, after that object's
  four bounds have been read. A negative dimension is accepted.
- Boxes outside the image are not clamped. `Denormalise` shows that the corners are exact.
- The script prints a success message and returns nothing. It does not report a count.

## Model

| member | source | states |
|---|---|---|
| `Converter.XmlToCustomJson` | covert_ds_to_json_format.py:5-66 | the converter's loop returns exactly the record, or the first error, that `Convert` defines |
| `Converter.BuildEntry` | covert_ds_to_json_format.py:34-57 | one pass of the loop body (name, bounding box, four bounds, two appended corners) gives exactly `ConvertObject`'s entry or error |
| `Converter.ConvertObjectsPrefixFailure` | covert_ds_to_json_format.py:33-57 | once an object fails, the converter fails with that object's error whatever follows |
| `Converter.ConvertObjectsPointwise` | covert_ds_to_json_format.py:33-57 | a successful conversion has exactly one entry per object, and the k-th entry comes from the k-th object |
| `Converter.ConvertObjectsSucceedsIff` | covert_ds_to_json_format.py:33-57 | the objects convert if and only if every single object converts |
| `Converter.ConvertObjectsFirstError` | covert_ds_to_json_format.py:33-46 | the reported error is that of the first failing object, and all earlier objects convert |
| `Converter.ConvertObjectSpec` | covert_ds_to_json_format.py:34-55 | an object converts if and only if it has a name and four integer bounds and neither dimension is zero; its entry then has the one-element label, empty notes, the two normalised corners and the repeated image size |
| `Converter.DescribesOnlyConversion` | covert_ds_to_json_format.py:34-55 | any entry that meets that description is the one the conversion gives |
| `Converter.ConvertSucceedsIff` | covert_ds_to_json_format.py:21-46 | a document converts if and only if it has a filename, an integer width and height, every object is complete, and the dimensions are non-zero whenever there is an object |
| `Converter.ConvertRecord` | covert_ds_to_json_format.py:21-64 | a record's content is the base URL, "/" and the filename text; extras is null; the annotation list has one entry per object, in order, each describing its object with the document's size |
| `Converter.NoObjectsNoEntries` | covert_ds_to_json_format.py:25-62 | a document with a filename and a size but no objects converts to an empty annotation list, even with a zero dimension |
| `Converter.UnitScale` | covert_ds_to_json_format.py:45-46 | dividing ordered values in [0, d] by a positive d keeps their order and gives values in [0, 1] |
| `Converter.PointsInUnitSquare` | covert_ds_to_json_format.py:39-46 | a box inside a positive-size image gives two corners in the unit square, the first less than or equal to the second in each coordinate |
| `Converter.ConvertedPointsInUnitSquare` | covert_ds_to_json_format.py:33-62 | the same bound for the k-th entry of a converted document |
| `Converter.Denormalise` | covert_ds_to_json_format.py:39-55 | multiplying each corner by the image size that the entry repeats gives back the integer pixel bound exactly |
| `Converter.ExampleConversion` | covert_ds_to_json_format.py:5-66 | a 200x100 image with one person box (20,10)-(180,90) gives content "http://x/y/img1.png" and corners (0.1,0.1), (0.9,0.9) |
| `Aggregator.XmlFiles` | covert_ds_to_json_format.py:81 | the filtered listing holds exactly the listing entries whose name ends with ".xml" and is no longer than the listing |
| `Aggregator.XmlFilesAppend` | covert_ds_to_json_format.py:81 | filtering distributes over concatenation, so listing order is kept |
| `Aggregator.XmlFilesSingle` | covert_ds_to_json_format.py:81 | a single entry is kept if and only if its name ends with the case-sensitive ".xml" |
| `Aggregator.CollectAnnotations` | covert_ds_to_json_format.py:78-91 | the conversion loop returns exactly the records, or the first error, that `ConvertFiles` defines |
| `Aggregator.ConvertFilesPrefixFailure` | covert_ds_to_json_format.py:84-91 | once a file fails, the batch fails with that file's error whatever follows |
| `Aggregator.ConvertFilesPointwise` | covert_ds_to_json_format.py:84-91 | a successful batch has one record per file, the k-th from the k-th file |
| `Aggregator.ConvertFilesSucceedsIff` | covert_ds_to_json_format.py:84-91 | all or nothing: the batch succeeds if and only if every file parses and its document is convertible |
| `Aggregator.ConvertFilesFirstError` | covert_ds_to_json_format.py:84-91 | a failed batch reports the error of the first failing file, and all earlier files convert |
| `Aggregator.OutputFile.Open` | covert_ds_to_json_format.py:94 | opening the output file for writing empties it |
| `Aggregator.OutputFile.Write` | covert_ds_to_json_format.py:96-97 | a write appends one chunk |
| `Aggregator.WriteAnnotations` | covert_ds_to_json_format.py:94-97 | after the writing loop the file holds exactly each record followed by a newline |
| `Aggregator.ProcessAllAnnotationsToSingleJson` | covert_ds_to_json_format.py:68-97 | the run fails if and only if converting the ".xml" entries fails, with the same error and the output file untouched; on success the file holds the records one per line |
| `Aggregator.NdJsonSnoc` | covert_ds_to_json_format.py:95-97 | one more record adds that record and then a newline at the end of the output |
| `Aggregator.NdJsonLayout` | covert_ds_to_json_format.py:95-97 | the output has two chunks per record: the k-th record and then a newline |
| `Aggregator.ReadBackNdJson` | covert_ds_to_json_format.py:95-97 | splitting the output at its newlines gives back exactly the records, in order |
| `Aggregator.RunOutput` | covert_ds_to_json_format.py:81-97 | a successful run produces one record per ".xml" entry of the listing, the k-th record from the k-th entry, and writes two chunks per entry: the k-th record and then a newline |

## Left out

- XML parsing (`ET.parse`, `find`, `findall`). The input is an already-parsed tree. A file
  that does not parse is a `DirEntry` with no document, and it fails with `ParseError`.
- Integer parsing by `int`. Python accepts signs, surrounding whitespace and underscores, and
  the model does not reproduce that. Each integer element carries the value `int` would give,
  or `None` when `int` would raise.
- Floating-point rounding and overflow. Corners are exact rationals (`real`), so the properties
  hold over the reals and not over IEEE doubles. A quotient beyond the double range (an integer
  bound of more than about 10^308 pixels) raises `OverflowError` in the script, but the model
  converts it, and `ConvertSucceedsIff` counts such a document as convertible.
- The directory listing and path joining (`os.listdir`, `os.path.join`). The listing is an
  input sequence, and its filesystem-dependent order is not modelled.
- JSON serialisation (`json.dump`). A written record is the abstract chunk `Dump(record)`, not
  JSON text. The JSON key "label" is the field `labels`, because `label` is a Dafny keyword.
  The field `extras` is typed `Option<string>` and is always null; the source does not fix the
  type of any other value.
- File handling: the encoding, closing the file, and I/O errors while opening or writing it.
- Python's exception classes. `AttributeError`, `TypeError`/`ValueError`, `ZeroDivisionError`
  and the parser's error become `MissingElement`, `NotAnInteger`, `ZeroDivision` and
  `ParseError`.
- The success message printed at the end, and the module-level paths and example call at the
  bottom of the script. These are console output and configuration, with no logic.
