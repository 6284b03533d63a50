/** The batch aggregator: convert every ".xml" entry of a directory listing and,
    only when all of them convert, write the records one per line. */
module Aggregator {
  import opened Wrappers
  import opened Converter

  /** One entry of the directory listing: its name and, when the file parses as
      XML, the parsed annotation document. */
  datatype DirEntry = DirEntry(name: string, document: Option<Document>)

  /** The case-sensitive suffix test of the listing filter. */
  predicate EndsWithXml(name: string) {
    |name| >= 4 && name[|name| - 4..] == ".xml"
  }

  /** The entries of the listing whose name ends with ".xml", in listing order. */
  function XmlFiles(listing: seq<DirEntry>): (files: seq<DirEntry>)
    ensures |files| <= |listing|
    ensures forall f :: f in files <==> f in listing && EndsWithXml(f.name)
  {
    if listing == [] then []
    else (if EndsWithXml(listing[0].name) then [listing[0]] else []) + XmlFiles(listing[1..])
  }

  /** Parse and convert one file. */
  function ConvertFile(file: DirEntry, baseUrl: string): Result<Record, Error> {
    if file.document.None? then Failure(ParseError(file.name))
    else Convert(file.document.value, baseUrl)
  }

  /** The records of a sequence of files; the first file that fails decides the error. */
  function ConvertFiles(files: seq<DirEntry>, baseUrl: string): Result<seq<Record>, Error> {
    if files == [] then Success([])
    else
      var records :- ConvertFiles(files[..|files| - 1], baseUrl);
      var last :- ConvertFile(files[|files| - 1], baseUrl);
      Success(records + [last])
  }

  /** What is written to the output file: a serialised record, or plain text. */
  datatype Chunk = Dump(record: Record) | Text(text: string)

  /** Newline-delimited output: each record followed by "\n". */
  function NdJson(records: seq<Record>): seq<Chunk> {
    if records == [] then []
    else [Dump(records[0]), Text("\n")] + NdJson(records[1..])
  }

  /** A reader of newline-delimited output: records each followed by "\n", or
      None when the chunks are not of that shape. */
  function ReadBack(chunks: seq<Chunk>): Option<seq<Record>> {
    if chunks == [] then Some([])
    else if |chunks| >= 2 && chunks[0].Dump? && chunks[1] == Text("\n") then
      match ReadBack(chunks[2..])
      case None => None
      case Some(rest) => Some([chunks[0].record] + rest)
    else None
  }

  /** The output file. Opening it for writing empties it; each write appends. */
  class OutputFile {
    var chunks: seq<Chunk>

    constructor (existing: seq<Chunk>)
      ensures chunks == existing
    {
      chunks := existing;
    }

    method Open()
      modifies this
      ensures chunks == []
    {
      chunks := [];
    }

    method Write(c: Chunk)
      modifies this
      ensures chunks == old(chunks) + [c]
    {
      chunks := chunks + [c];
    }
  }

  /** The conversion loop: convert each file in order and append its record;
      the first file that fails ends the loop with its error. */
  method CollectAnnotations(xmlFiles: seq<DirEntry>, baseUrl: string) returns (r: Result<seq<Record>, Error>)
    ensures r == ConvertFiles(xmlFiles, baseUrl)
  {
    var allAnnotations: seq<Record> := [];
    for i := 0 to |xmlFiles|
      invariant ConvertFiles(xmlFiles[..i], baseUrl) == Success(allAnnotations)
    {
      var xmlFile := xmlFiles[i];
      assert xmlFiles[..i + 1][..i] == xmlFiles[..i];
      if xmlFile.document.None? {
        ConvertFilesPrefixFailure(xmlFiles, i + 1, baseUrl);
        return Failure(ParseError(xmlFile.name));
      }
      var jsonData := XmlToCustomJson(xmlFile.document.value, baseUrl);
      if jsonData.Failure? {
        ConvertFilesPrefixFailure(xmlFiles, i + 1, baseUrl);
        return Failure(jsonData.error);
      }
      allAnnotations := allAnnotations + [jsonData.value];
    }
    assert xmlFiles[..|xmlFiles|] == xmlFiles;
    r := Success(allAnnotations);
  }

  /** The writing loop: open the file for writing, then each record and a newline. */
  method WriteAnnotations(jsonFile: OutputFile, allAnnotations: seq<Record>)
    modifies jsonFile
    ensures jsonFile.chunks == NdJson(allAnnotations)
  {
    jsonFile.Open();
    for i := 0 to |allAnnotations|
      invariant jsonFile.chunks == NdJson(allAnnotations[..i])
    {
      jsonFile.Write(Dump(allAnnotations[i]));
      jsonFile.Write(Text("\n"));
      assert allAnnotations[..i + 1] == allAnnotations[..i] + [allAnnotations[i]];
      NdJsonSnoc(allAnnotations[..i], allAnnotations[i]);
    }
    assert allAnnotations[..|allAnnotations|] == allAnnotations;
  }

  /** Convert every ".xml" entry of the listing in order, and only if all of them
      convert, overwrite the output file with one record per line. On failure the
      file is never opened and keeps its old contents. */
  method ProcessAllAnnotationsToSingleJson(listing: seq<DirEntry>, jsonFile: OutputFile, baseUrl: string)
    returns (r: Result<(), Error>)
    modifies jsonFile
    ensures var expected := ConvertFiles(XmlFiles(listing), baseUrl);
      && (r.Failure? <==> expected.Failure?)
      && (expected.Failure? ==> r.error == expected.error && jsonFile.chunks == old(jsonFile.chunks))
      && (expected.Success? ==> jsonFile.chunks == NdJson(expected.value))
  {
    var xmlFiles := XmlFiles(listing);
    var allAnnotations :- CollectAnnotations(xmlFiles, baseUrl);
    WriteAnnotations(jsonFile, allAnnotations);
    r := Success(());
  }

  // Properties of the filter.

  /** Filtering distributes over concatenation: order is kept and no entry is
      dropped or added out of turn. */
  lemma {:induction false} XmlFilesAppend(a: seq<DirEntry>, b: seq<DirEntry>)
    ensures XmlFiles(a + b) == XmlFiles(a) + XmlFiles(b)
  {
    if a == [] {
      assert a + b == b;
    } else {
      assert (a + b)[0] == a[0];
      assert (a + b)[1..] == a[1..] + b;
      XmlFilesAppend(a[1..], b);
    }
  }

  /** A single entry is kept exactly when its name ends with ".xml". */
  lemma XmlFilesSingle(e: DirEntry)
    ensures XmlFiles([e]) == if EndsWithXml(e.name) then [e] else []
  {
    assert [e][1..] == [];
  }

  // Properties of the batch conversion.

  /** Once a prefix of the files fails, the whole batch fails with that error. */
  lemma {:induction false} ConvertFilesPrefixFailure(files: seq<DirEntry>, n: nat, baseUrl: string)
    requires n <= |files|
    requires ConvertFiles(files[..n], baseUrl).Failure?
    ensures ConvertFiles(files, baseUrl) == ConvertFiles(files[..n], baseUrl)
  {
    if n < |files| {
      var init := files[..|files| - 1];
      assert init[..n] == files[..n];
      ConvertFilesPrefixFailure(init, n, baseUrl);
    } else {
      assert files[..n] == files;
    }
  }

  /** A successful batch has one record per file, the k-th from the k-th file. */
  lemma {:induction false} ConvertFilesPointwise(files: seq<DirEntry>, baseUrl: string)
    requires ConvertFiles(files, baseUrl).Success?
    ensures |ConvertFiles(files, baseUrl).value| == |files|
    ensures forall k :: 0 <= k < |files| ==>
      ConvertFile(files[k], baseUrl) == Success(ConvertFiles(files, baseUrl).value[k])
  {
    if files != [] {
      var init := files[..|files| - 1];
      ConvertFilesPointwise(init, baseUrl);
      forall k | 0 <= k < |init| ensures files[k] == init[k] { }
    }
  }

  /** All or nothing: the batch succeeds exactly when every file parses and converts. */
  lemma {:induction false} ConvertFilesSucceedsIff(files: seq<DirEntry>, baseUrl: string)
    ensures ConvertFiles(files, baseUrl).Success?
        <==> forall k :: 0 <= k < |files| ==>
               files[k].document.Some? && Convertible(files[k].document.value)
  {
    if files != [] {
      var init := files[..|files| - 1];
      ConvertFilesSucceedsIff(init, baseUrl);
      forall k | 0 <= k < |files|
        ensures ConvertFile(files[k], baseUrl).Success?
            <==> files[k].document.Some? && Convertible(files[k].document.value)
      {
        if files[k].document.Some? {
          ConvertSucceedsIff(files[k].document.value, baseUrl);
        }
      }
      forall k | 0 <= k < |init| ensures files[k] == init[k] { }
    }
  }

  /** A failed batch reports the error of the first file that fails. */
  lemma {:induction false} ConvertFilesFirstError(files: seq<DirEntry>, baseUrl: string)
    requires ConvertFiles(files, baseUrl).Failure?
    ensures exists k :: (0 <= k < |files|
      && ConvertFile(files[k], baseUrl) == Failure(ConvertFiles(files, baseUrl).error)
      && forall j :: 0 <= j < k ==> ConvertFile(files[j], baseUrl).Success?)
  {
    var init := files[..|files| - 1];
    forall k | 0 <= k < |init| ensures files[k] == init[k] { }
    if ConvertFiles(init, baseUrl).Failure? {
      ConvertFilesFirstError(init, baseUrl);
    } else {
      ConvertFilesPointwise(init, baseUrl);
      assert ConvertFile(files[|init|], baseUrl).Failure?;
    }
  }

  // Properties of the output.

  /** Writing one more record appends that record and a newline. */
  lemma {:induction false} NdJsonSnoc(records: seq<Record>, last: Record)
    ensures NdJson(records + [last]) == NdJson(records) + [Dump(last), Text("\n")]
  {
    if records != [] {
      assert (records + [last])[1..] == records[1..] + [last];
      NdJsonSnoc(records[1..], last);
    }
  }

  /** The output has two chunks per record: the k-th record and then a newline. */
  lemma {:induction false} NdJsonLayout(records: seq<Record>)
    ensures |NdJson(records)| == 2 * |records|
    ensures forall k :: 0 <= k < |records| ==>
      NdJson(records)[2 * k] == Dump(records[k]) && NdJson(records)[2 * k + 1] == Text("\n")
  {
    if records != [] {
      NdJsonLayout(records[1..]);
      forall k | 1 <= k < |records|
        ensures NdJson(records)[2 * k] == Dump(records[k]) && NdJson(records)[2 * k + 1] == Text("\n")
      {
        assert NdJson(records)[2 * k] == NdJson(records[1..])[2 * (k - 1)];
        assert NdJson(records)[2 * k + 1] == NdJson(records[1..])[2 * (k - 1) + 1];
      }
    }
  }

  /** Splitting the output at its newlines gives back exactly the records, in order. */
  lemma {:induction false} ReadBackNdJson(records: seq<Record>)
    ensures ReadBack(NdJson(records)) == Some(records)
  {
    if records != [] {
      var out := NdJson(records);
      assert out[2..] == NdJson(records[1..]);
      ReadBackNdJson(records[1..]);
      assert [records[0]] + records[1..] == records;
    }
  }

  /** A successful run writes one record per ".xml" entry, the k-th record from
      the k-th such entry, each on its own line. */
  lemma RunOutput(listing: seq<DirEntry>, baseUrl: string)
    requires ConvertFiles(XmlFiles(listing), baseUrl).Success?
    ensures |ConvertFiles(XmlFiles(listing), baseUrl).value| == |XmlFiles(listing)|
    ensures |NdJson(ConvertFiles(XmlFiles(listing), baseUrl).value)| == 2 * |XmlFiles(listing)|
    ensures var files := XmlFiles(listing);
      var records := ConvertFiles(files, baseUrl).value;
      forall k :: 0 <= k < |files| ==>
        && ConvertFile(files[k], baseUrl) == Success(records[k])
        && NdJson(records)[2 * k] == Dump(records[k])
        && NdJson(records)[2 * k + 1] == Text("\n")
  {
    ConvertFilesPointwise(XmlFiles(listing), baseUrl);
    NdJsonLayout(ConvertFiles(XmlFiles(listing), baseUrl).value);
  }
}
