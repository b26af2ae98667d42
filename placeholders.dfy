/** `GET /:cluster/media/:id/placeholder`: the probe's stream list is searched for a width and a
    height, both are scaled so the larger side is 650, and an SVG box of that size is sent. */
module Placeholders {
  import opened Base

  /** The kinds of JSON value the probe output can hold under a stream's key; only numbers count
      as an attribute. */
  datatype Json = Number(n: real) | Text(s: string) | Other

  /** One entry of the probe's `streams` array. */
  type Stream = map<string, Json>

  /** The lookup `streams.<i>.<attr>` asserted to a number: present only when stream `i` exists
      and holds a number under `attr`. */
  function NumberAt(streams: seq<Stream>, i: int, attr: string): (r: Option<real>)
    ensures r.Some? <==> 0 <= i < |streams| && attr in streams[i] && streams[i][attr].Number?
    ensures r.Some? ==> streams[i][attr] == Number(r.value)
  {
    if 0 <= i < |streams| && attr in streams[i] && streams[i][attr].Number? then
      Some(streams[i][attr].n)
    else
      None
  }

  /** Some stream at or after `from` holds a number under `attr`. */
  predicate HasNumberFrom(streams: seq<Stream>, attr: string, from: nat) {
    exists k :: from <= k < |streams| && NumberAt(streams, k, attr).Some?
  }

  /** The first stream index at or after `from` that holds a number under `attr`. */
  function FirstNumberIndex(streams: seq<Stream>, attr: string, from: nat): (i: nat)
    requires HasNumberFrom(streams, attr, from)
    ensures from <= i < |streams| && NumberAt(streams, i, attr).Some?
    ensures forall j :: from <= j < i ==> NumberAt(streams, j, attr).None?
    decreases |streams| - from
  {
    if NumberAt(streams, from, attr).Some? then from
    else
      assert HasNumberFrom(streams, attr, from + 1);
      FirstNumberIndex(streams, attr, from + 1)
  }

  /** The value `getAttribute` settles on. */
  function Attribute(streams: seq<Stream>, attr: string): real
    requires HasNumberFrom(streams, attr, 0)
  {
    NumberAt(streams, FirstNumberIndex(streams, attr, 0), attr).value
  }

  /** `getAttribute`: tries stream 0, 1, 2, ... until one holds a number under `attr`. The
      search only ends when such a stream exists. */
  method GetAttribute(streams: seq<Stream>, attr: string) returns (value: real)
    requires HasNumberFrom(streams, attr, 0)
    ensures exists i :: 0 <= i < |streams| && NumberAt(streams, i, attr) == Some(value)
    ensures value == Attribute(streams, attr)
  {
    value := 0.0;
    var ok := false;
    var i := 0;
    while !ok
      invariant 0 <= i <= |streams|
      invariant forall j :: 0 <= j < i - 1 ==> NumberAt(streams, j, attr).None?
      invariant !ok ==> forall j :: 0 <= j < i ==> NumberAt(streams, j, attr).None?
      invariant ok ==> 0 < i && NumberAt(streams, i - 1, attr) == Some(value)
      decreases |streams| - i, if ok then 0 else 1
    {
      var found := NumberAt(streams, i, attr);
      value, ok := if found.Some? then found.value else 0.0, found.Some?;
      i := i + 1;
    }
    ghost var first := FirstNumberIndex(streams, attr, 0);
    assert first == i - 1;
  }

  function Max(a: real, b: real): real {
    if a > b then a else b
  }

  /** The scale factor: 650 over the width when it is the larger side, over the height
      otherwise. */
  function ScaleFactor(width: real, height: real): (k: real)
    requires Max(width, height) != 0.0
    ensures k * Max(width, height) == 650.0
  {
    if width > height then 650.0 / width else 650.0 / height
  }

  /** For a real (positive) box, the scaled box has 650 as its larger side and keeps the
      original aspect ratio. */
  lemma ScaledBox(width: real, height: real)
    requires width > 0.0 && height > 0.0
    ensures Max(width * ScaleFactor(width, height), height * ScaleFactor(width, height)) == 650.0
    ensures (width * ScaleFactor(width, height)) / (height * ScaleFactor(width, height)) == width / height
  {
  }

  /** A 1920 by 1080 video gets a 650 by 365.625 placeholder. */
  lemma FullHdExample()
    ensures 1920.0 * ScaleFactor(1920.0, 1080.0) == 650.0
    ensures 1080.0 * ScaleFactor(1920.0, 1080.0) == 365.625
  {
  }

  /** What the probe step can end in. */
  datatype Probe = ProbeFailed | Unparsable | Parsed(streams: seq<Stream>)

  /** The response: an error status with its text, or the SVG, whose view box and rectangle
      sizes are kept apart as the template writes them. */
  datatype Response =
    | Failure(status: int, message: string)
    | Svg(contentType: string, viewWidth: real, viewHeight: real, rectWidth: real, rectHeight: real)

  /** The probe holds the two attributes and they do not make the scale divide by zero. */
  predicate Drawable(streams: seq<Stream>) {
    && HasNumberFrom(streams, "width", 0)
    && HasNumberFrom(streams, "height", 0)
    && Max(Attribute(streams, "width"), Attribute(streams, "height")) != 0.0
  }

  /** The placeholder handler, from the probe's outcome on. */
  method Placeholder(probe: Probe) returns (r: Response)
    requires probe.Parsed? ==> Drawable(probe.streams)
    ensures probe.ProbeFailed? ==> r == Failure(422, "Failed to get media information")
    ensures probe.Unparsable? ==> r == Failure(422, "Failed to parse media information")
    ensures probe.Parsed? <==> r.Svg?
    ensures r.Svg? ==>
      var w, h := Attribute(probe.streams, "width"), Attribute(probe.streams, "height");
      && r.contentType == "image/svg+xml"
      && r.viewWidth == r.rectWidth && r.viewHeight == r.rectHeight
      && r.viewWidth == w * ScaleFactor(w, h) && r.viewHeight == h * ScaleFactor(w, h)
      && r.viewWidth * h == r.viewHeight * w
      && (w > 0.0 && h > 0.0 ==> Max(r.viewWidth, r.viewHeight) == 650.0)
  {
    match probe {
      case ProbeFailed =>
        r := Failure(422, "Failed to get media information");
      case Unparsable =>
        r := Failure(422, "Failed to parse media information");
      case Parsed(streams) =>
        var width := GetAttribute(streams, "width");
        var height := GetAttribute(streams, "height");
        var k: real;
        if width > height {
          k := 650.0 / width;
        } else {
          k := 650.0 / height;
        }
        r := Svg("image/svg+xml", width * k, height * k, width * k, height * k);
        if width > 0.0 && height > 0.0 {
          ScaledBox(width, height);
        }
    }
  }
}
