/** The record converter: one parsed Pascal-VOC annotation document becomes one
    output record with a content URL, one entry per object and normalised corners. */
module Converter {
  import opened Wrappers

  // The parsed annotation document. A child that `find` may not locate is an
  // Option; the `object` children that `findall` returns are a sequence in
  // document order.

  /** A text element; `text` is None when the element is empty. */
  datatype TextLeaf = TextLeaf(text: Option<string>)

  /** An integer element; `value` is what `int` makes of its text, None when the
      text is absent or is not an integer literal. */
  datatype IntLeaf = IntLeaf(value: Option<int>)

  datatype SizeNode = SizeNode(width: Option<IntLeaf>, height: Option<IntLeaf>)

  datatype BndBoxNode = BndBoxNode(
    xmin: Option<IntLeaf>, ymin: Option<IntLeaf>,
    xmax: Option<IntLeaf>, ymax: Option<IntLeaf>)

  datatype ObjectNode = ObjectNode(name: Option<TextLeaf>, bndbox: Option<BndBoxNode>)

  datatype Document = Document(
    filename: Option<TextLeaf>, size: Option<SizeNode>, objects: seq<ObjectNode>)

  // The output record, field for field as the JSON object the converter builds.

  datatype Point = Point(x: real, y: real)

  /** One annotation entry (`labels` is the JSON key "label"); a label of None is a JSON null. */
  datatype Entry = Entry(
    labels: seq<Option<string>>, notes: string, points: seq<Point>,
    imageWidth: int, imageHeight: int)

  /** One record; an `extras` of None is a JSON null. */
  datatype Record = Record(content: string, annotation: seq<Entry>, extras: Option<string>)

  /** Why a conversion raises: a missing element (the attribute lookup on None),
      a text that is not an integer, a division by a zero dimension, or a file
      that does not parse as XML. */
  datatype Error =
    | MissingElement(path: string)
    | NotAnInteger(path: string)
    | ZeroDivision
    | ParseError(file: string)

  /** How an optional text is formatted into a string: None becomes "None". */
  function Str(text: Option<string>): string {
    if text.Some? then text.value else "None"
  }

  /** `int(parent.find(tag).text)` for the child at `path`. */
  function IntValue(leaf: Option<IntLeaf>, path: string): Result<int, Error> {
    match leaf
    case None => Failure(MissingElement(path))
    case Some(IntLeaf(v)) => if v.Some? then Success(v.value) else Failure(NotAnInteger(path))
  }

  /** The entry for one object, with the fields read in the converter's order. */
  function ConvertObject(obj: ObjectNode, width: int, height: int): Result<Entry, Error> {
    if obj.name.None? then Failure(MissingElement("object/name"))
    else if obj.bndbox.None? then Failure(MissingElement("object/bndbox"))
    else
      var box := obj.bndbox.value;
      var xmin :- IntValue(box.xmin, "object/bndbox/xmin");
      var ymin :- IntValue(box.ymin, "object/bndbox/ymin");
      var xmax :- IntValue(box.xmax, "object/bndbox/xmax");
      var ymax :- IntValue(box.ymax, "object/bndbox/ymax");
      if width == 0 || height == 0 then Failure(ZeroDivision)
      else
        var first := Point((xmin as real) / (width as real), (ymin as real) / (height as real));
        var second := Point((xmax as real) / (width as real), (ymax as real) / (height as real));
        Success(Entry([obj.name.value.text], "", [first, second], width, height))
  }

  /** The entries for a sequence of objects; the first object that fails decides the error. */
  function ConvertObjects(objs: seq<ObjectNode>, width: int, height: int): Result<seq<Entry>, Error> {
    if objs == [] then Success([])
    else
      var entries :- ConvertObjects(objs[..|objs| - 1], width, height);
      var last :- ConvertObject(objs[|objs| - 1], width, height);
      Success(entries + [last])
  }

  /** The record for a whole document. */
  function Convert(doc: Document, baseUrl: string): Result<Record, Error> {
    if doc.filename.None? then Failure(MissingElement("filename"))
    else if doc.size.None? then Failure(MissingElement("size"))
    else
      var width :- IntValue(doc.size.value.width, "size/width");
      var height :- IntValue(doc.size.value.height, "size/height");
      var annotation :- ConvertObjects(doc.objects, width, height);
      Success(Record(baseUrl + "/" + Str(doc.filename.value.text), annotation, None))
  }

  // A description of well-formed input and of the entry an object must give,
  // stated independently of the conversion functions above.

  predicate HasInt(leaf: Option<IntLeaf>) {
    leaf.Some? && leaf.value.value.Some?
  }

  function IntOf(leaf: Option<IntLeaf>): int
    requires HasInt(leaf)
  {
    leaf.value.value.value
  }

  /** The object has a name and a bounding box with four integer bounds. */
  predicate ObjectComplete(obj: ObjectNode) {
    obj.name.Some? && obj.bndbox.Some?
    && HasInt(obj.bndbox.value.xmin) && HasInt(obj.bndbox.value.ymin)
    && HasInt(obj.bndbox.value.xmax) && HasInt(obj.bndbox.value.ymax)
  }

  /** A bounding box in pixels. */
  datatype PixelBox = PixelBox(xmin: int, ymin: int, xmax: int, ymax: int)

  function BoxOf(obj: ObjectNode): PixelBox
    requires ObjectComplete(obj)
  {
    var b := obj.bndbox.value;
    PixelBox(IntOf(b.xmin), IntOf(b.ymin), IntOf(b.xmax), IntOf(b.ymax))
  }

  /** The document has a size block with integer width and height. */
  predicate HasSize(doc: Document) {
    doc.size.Some? && HasInt(doc.size.value.width) && HasInt(doc.size.value.height)
  }

  function ImageWidth(doc: Document): int
    requires HasSize(doc)
  {
    IntOf(doc.size.value.width)
  }

  function ImageHeight(doc: Document): int
    requires HasSize(doc)
  {
    IntOf(doc.size.value.height)
  }

  /** Every field the converter reads is there, and if any box is normalised
      neither dimension is zero. */
  predicate Convertible(doc: Document) {
    doc.filename.Some? && HasSize(doc)
    && (forall k :: 0 <= k < |doc.objects| ==> ObjectComplete(doc.objects[k]))
    && (|doc.objects| > 0 ==> ImageWidth(doc) != 0 && ImageHeight(doc) != 0)
  }

  /** `e` is the entry of `obj` in an image of the given size: the name as a
      one-element label list, empty notes, the top-left and bottom-right corners
      divided by the image size, and the image size repeated. */
  predicate Describes(e: Entry, obj: ObjectNode, width: int, height: int)
    requires width != 0 && height != 0
  {
    ObjectComplete(obj)
    && e.labels == [obj.name.value.text]
    && e.notes == ""
    && |e.points| == 2
    && e.points[0].x == (BoxOf(obj).xmin as real) / (width as real)
    && e.points[0].y == (BoxOf(obj).ymin as real) / (height as real)
    && e.points[1].x == (BoxOf(obj).xmax as real) / (width as real)
    && e.points[1].y == (BoxOf(obj).ymax as real) / (height as real)
    && e.imageWidth == width
    && e.imageHeight == height
  }

  /** The box lies inside an image of positive size, corners in order. */
  predicate InsideImage(box: PixelBox, width: int, height: int) {
    0 < width && 0 < height
    && 0 <= box.xmin <= box.xmax <= width
    && 0 <= box.ymin <= box.ymax <= height
  }

  // The converter as the source runs it: a loop that appends one entry per object.

  /** The body of the converter's loop for one object: read the name, then the
      four bounds, then append the two normalised corners. */
  method BuildEntry(obj: ObjectNode, imageWidth: int, imageHeight: int) returns (r: Result<Entry, Error>)
    ensures r == ConvertObject(obj, imageWidth, imageHeight)
  {
    if obj.name.None? {
      return Failure(MissingElement("object/name"));
    }
    var labels := [obj.name.value.text];
    var points: seq<Point> := [];
    if obj.bndbox.None? {
      return Failure(MissingElement("object/bndbox"));
    }
    var bndbox := obj.bndbox.value;
    var xmin :- IntValue(bndbox.xmin, "object/bndbox/xmin");
    var ymin :- IntValue(bndbox.ymin, "object/bndbox/ymin");
    var xmax :- IntValue(bndbox.xmax, "object/bndbox/xmax");
    var ymax :- IntValue(bndbox.ymax, "object/bndbox/ymax");
    if imageWidth == 0 || imageHeight == 0 {
      return Failure(ZeroDivision);
    }
    points := points + [Point((xmin as real) / (imageWidth as real), (ymin as real) / (imageHeight as real))];
    points := points + [Point((xmax as real) / (imageWidth as real), (ymax as real) / (imageHeight as real))];
    assert points == [points[0], points[1]];
    r := Success(Entry(labels, "", points, imageWidth, imageHeight));
  }

  /** Convert one annotation document into one record. */
  method XmlToCustomJson(doc: Document, baseUrl: string) returns (r: Result<Record, Error>)
    ensures r == Convert(doc, baseUrl)
  {
    if doc.filename.None? {
      return Failure(MissingElement("filename"));
    }
    var contentUrl := baseUrl + "/" + Str(doc.filename.value.text);
    var annotations: seq<Entry> := [];
    if doc.size.None? {
      return Failure(MissingElement("size"));
    }
    var imageWidth :- IntValue(doc.size.value.width, "size/width");
    var imageHeight :- IntValue(doc.size.value.height, "size/height");
    var i := 0;
    while i < |doc.objects|
      invariant i <= |doc.objects|
      invariant ConvertObjects(doc.objects[..i], imageWidth, imageHeight) == Success(annotations)
    {
      var entry := BuildEntry(doc.objects[i], imageWidth, imageHeight);
      assert doc.objects[..i + 1][..i] == doc.objects[..i];
      if entry.Failure? {
        ConvertObjectsPrefixFailure(doc.objects, i + 1, imageWidth, imageHeight);
        return Failure(entry.error);
      }
      annotations := annotations + [entry.value];
      i := i + 1;
    }
    assert doc.objects[..i] == doc.objects;
    r := Success(Record(contentUrl, annotations, None));
  }

  // Properties of the conversion.

  /** Once a prefix of the objects fails, the whole sequence fails with that error. */
  lemma {:induction false} ConvertObjectsPrefixFailure(objs: seq<ObjectNode>, n: nat, width: int, height: int)
    requires n <= |objs|
    requires ConvertObjects(objs[..n], width, height).Failure?
    ensures ConvertObjects(objs, width, height) == ConvertObjects(objs[..n], width, height)
  {
    if n < |objs| {
      var init := objs[..|objs| - 1];
      assert init[..n] == objs[..n];
      ConvertObjectsPrefixFailure(init, n, width, height);
    } else {
      assert objs[..n] == objs;
    }
  }

  /** A successful conversion gives one entry per object, the k-th entry from the k-th object. */
  lemma {:induction false} ConvertObjectsPointwise(objs: seq<ObjectNode>, width: int, height: int)
    requires ConvertObjects(objs, width, height).Success?
    ensures |ConvertObjects(objs, width, height).value| == |objs|
    ensures forall k :: 0 <= k < |objs| ==>
      ConvertObject(objs[k], width, height) == Success(ConvertObjects(objs, width, height).value[k])
  {
    if objs != [] {
      var init := objs[..|objs| - 1];
      ConvertObjectsPointwise(init, width, height);
      forall k | 0 <= k < |init| ensures objs[k] == init[k] { }
    }
  }

  /** The objects convert exactly when every one of them converts. */
  lemma {:induction false} ConvertObjectsSucceedsIff(objs: seq<ObjectNode>, width: int, height: int)
    ensures ConvertObjects(objs, width, height).Success?
        <==> forall k :: 0 <= k < |objs| ==> ConvertObject(objs[k], width, height).Success?
  {
    if objs != [] {
      var init := objs[..|objs| - 1];
      ConvertObjectsSucceedsIff(init, width, height);
      forall k | 0 <= k < |init| ensures objs[k] == init[k] { }
    }
  }

  /** A failed conversion reports the error of the first object that fails. */
  lemma {:induction false} ConvertObjectsFirstError(objs: seq<ObjectNode>, width: int, height: int)
    requires ConvertObjects(objs, width, height).Failure?
    ensures exists k :: (0 <= k < |objs|
      && ConvertObject(objs[k], width, height) == Failure(ConvertObjects(objs, width, height).error)
      && forall j :: 0 <= j < k ==> ConvertObject(objs[j], width, height).Success?)
  {
    var init := objs[..|objs| - 1];
    forall k | 0 <= k < |init| ensures objs[k] == init[k] { }
    if ConvertObjects(init, width, height).Failure? {
      ConvertObjectsFirstError(init, width, height);
    } else {
      ConvertObjectsSucceedsIff(init, width, height);
      assert ConvertObject(objs[|init|], width, height).Failure?;
    }
  }

  /** One object converts exactly when it is complete and neither dimension is
      zero, and then into the entry that describes it. */
  lemma ConvertObjectSpec(obj: ObjectNode, width: int, height: int)
    ensures ConvertObject(obj, width, height).Success?
        <==> ObjectComplete(obj) && width != 0 && height != 0
    ensures ConvertObject(obj, width, height).Success? ==>
      Describes(ConvertObject(obj, width, height).value, obj, width, height)
  {
  }

  /** An entry that describes an object is the one its conversion gives: the
      description determines the entry. */
  lemma DescribesOnlyConversion(e: Entry, obj: ObjectNode, width: int, height: int)
    requires width != 0 && height != 0
    requires Describes(e, obj, width, height)
    ensures ConvertObject(obj, width, height) == Success(e)
  {
    assert e.points == [e.points[0], e.points[1]];
  }

  /** Conversion succeeds exactly on documents whose required fields are all there. */
  lemma ConvertSucceedsIff(doc: Document, baseUrl: string)
    ensures Convert(doc, baseUrl).Success? <==> Convertible(doc)
  {
    if doc.filename.Some? && HasSize(doc) {
      var w, h := ImageWidth(doc), ImageHeight(doc);
      ConvertObjectsSucceedsIff(doc.objects, w, h);
      forall k | 0 <= k < |doc.objects|
        ensures ConvertObject(doc.objects[k], w, h).Success? <==> ObjectComplete(doc.objects[k]) && w != 0 && h != 0
      {
        ConvertObjectSpec(doc.objects[k], w, h);
      }
      if |doc.objects| > 0 {
        ConvertObjectSpec(doc.objects[0], w, h);
      }
    }
  }

  /** What a successful record holds: the content URL, a null `extras`, and one
      entry per object, in order, each describing its object with the image size. */
  lemma ConvertRecord(doc: Document, baseUrl: string)
    requires Convert(doc, baseUrl).Success?
    ensures Convertible(doc)
    ensures Convert(doc, baseUrl).value.content == baseUrl + "/" + Str(doc.filename.value.text)
    ensures Convert(doc, baseUrl).value.extras == None
    ensures |Convert(doc, baseUrl).value.annotation| == |doc.objects|
    ensures |doc.objects| > 0 ==> ImageWidth(doc) != 0 && ImageHeight(doc) != 0
    ensures forall k :: 0 <= k < |doc.objects| ==>
      Describes(Convert(doc, baseUrl).value.annotation[k], doc.objects[k], ImageWidth(doc), ImageHeight(doc))
  {
    ConvertSucceedsIff(doc, baseUrl);
    var w, h := ImageWidth(doc), ImageHeight(doc);
    ConvertObjectsPointwise(doc.objects, w, h);
    forall k | 0 <= k < |doc.objects|
      ensures Describes(Convert(doc, baseUrl).value.annotation[k], doc.objects[k], w, h)
    {
      ConvertObjectSpec(doc.objects[k], w, h);
    }
  }

  /** A document without objects gives a record with an empty annotation list,
      whatever its dimensions. */
  lemma NoObjectsNoEntries(doc: Document, baseUrl: string)
    requires doc.filename.Some? && HasSize(doc) && doc.objects == []
    ensures Convert(doc, baseUrl).Success?
    ensures Convert(doc, baseUrl).value.annotation == []
  {
  }

  /** Real division by a positive number keeps order and maps [0, d] into [0, 1]. */
  lemma UnitScale(a: int, b: int, d: int)
    requires 0 < d && 0 <= a <= b <= d
    ensures 0.0 <= (a as real) / (d as real) <= (b as real) / (d as real) <= 1.0
  {
    var q := 1.0 / (d as real);
    assert (a as real) / (d as real) == (a as real) * q;
    assert (b as real) / (d as real) == (b as real) * q;
    assert (d as real) * q == 1.0;
  }

  /** A box inside the image gives corners in the unit square, top-left before bottom-right. */
  lemma PointsInUnitSquare(obj: ObjectNode, width: int, height: int)
    requires ObjectComplete(obj) && InsideImage(BoxOf(obj), width, height)
    ensures ConvertObject(obj, width, height).Success?
    ensures var p := ConvertObject(obj, width, height).value.points;
      |p| == 2
      && 0.0 <= p[0].x <= p[1].x <= 1.0
      && 0.0 <= p[0].y <= p[1].y <= 1.0
  {
    var box := BoxOf(obj);
    UnitScale(box.xmin, box.xmax, width);
    UnitScale(box.ymin, box.ymax, height);
  }

  /** The same bound for the k-th entry of a document's record. */
  lemma ConvertedPointsInUnitSquare(doc: Document, baseUrl: string, k: nat)
    requires Convertible(doc) && k < |doc.objects|
    requires InsideImage(BoxOf(doc.objects[k]), ImageWidth(doc), ImageHeight(doc))
    ensures Convert(doc, baseUrl).Success?
    ensures |Convert(doc, baseUrl).value.annotation| == |doc.objects|
    ensures var p := Convert(doc, baseUrl).value.annotation[k].points;
      |p| == 2
      && 0.0 <= p[0].x <= p[1].x <= 1.0
      && 0.0 <= p[0].y <= p[1].y <= 1.0
  {
    ConvertSucceedsIff(doc, baseUrl);
    ConvertRecord(doc, baseUrl);
    var w, h := ImageWidth(doc), ImageHeight(doc);
    PointsInUnitSquare(doc.objects[k], w, h);
    ConvertObjectsPointwise(doc.objects, w, h);
  }

  /** Normalisation is exact: multiplying a corner back by the image size that the
      entry repeats gives the pixel bound again, with no clamping. */
  lemma Denormalise(obj: ObjectNode, width: int, height: int)
    requires ConvertObject(obj, width, height).Success?
    ensures ObjectComplete(obj)
    ensures var e := ConvertObject(obj, width, height).value;
      |e.points| == 2
      && e.points[0].x * (e.imageWidth as real) == BoxOf(obj).xmin as real
      && e.points[0].y * (e.imageHeight as real) == BoxOf(obj).ymin as real
      && e.points[1].x * (e.imageWidth as real) == BoxOf(obj).xmax as real
      && e.points[1].y * (e.imageHeight as real) == BoxOf(obj).ymax as real
  {
    ConvertObjectSpec(obj, width, height);
  }

  /** The worked example: a 200 by 100 image with one person box. */
  lemma ExampleConversion()
    ensures
      var doc := Document(
        Some(TextLeaf(Some("img1.png"))),
        Some(SizeNode(Some(IntLeaf(Some(200))), Some(IntLeaf(Some(100))))),
        [ObjectNode(
          Some(TextLeaf(Some("person"))),
          Some(BndBoxNode(Some(IntLeaf(Some(20))), Some(IntLeaf(Some(10))),
                          Some(IntLeaf(Some(180))), Some(IntLeaf(Some(90))))))]);
      Convert(doc, "http://x/y") == Success(Record(
        "http://x/y/img1.png",
        [Entry([Some("person")], "", [Point(0.1, 0.1), Point(0.9, 0.9)], 200, 100)],
        None))
  {
    var obj := ObjectNode(
      Some(TextLeaf(Some("person"))),
      Some(BndBoxNode(Some(IntLeaf(Some(20))), Some(IntLeaf(Some(10))),
                      Some(IntLeaf(Some(180))), Some(IntLeaf(Some(90))))));
    var entry := Entry([Some("person")], "", [Point(0.1, 0.1), Point(0.9, 0.9)], 200, 100);
    assert ConvertObject(obj, 200, 100) == Success(entry);
    assert [obj][..0] == [];
    assert ConvertObjects([obj], 200, 100) == Success([] + [entry]);
    assert [] + [entry] == [entry];
    assert "http://x/y" + "/" + Str(Some("img1.png")) == "http://x/y/img1.png";
    var doc := Document(
      Some(TextLeaf(Some("img1.png"))),
      Some(SizeNode(Some(IntLeaf(Some(200))), Some(IntLeaf(Some(100))))),
      [obj]);
    assert IntValue(doc.size.value.width, "size/width") == Success(200);
    assert IntValue(doc.size.value.height, "size/height") == Success(100);
    assert ConvertObjects(doc.objects, 200, 100) == Success([entry]);
    assert Convert(doc, "http://x/y") == Success(Record("http://x/y/img1.png", [entry], None));
  }
}
