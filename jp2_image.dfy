/**
 * A JPEG 2000 image layer's image record: it asks the server for the image
 * closest in time to the requested date, merges the answer into itself,
 * derives the image's placement in the scene (helioprojective arcseconds)
 * from the reference pixel and pixel scale, and notifies its owner.
 */
module Jp2 {
  import opened Basics

  /** One level of a data source's hierarchy (observatory, instrument, ...). */
  datatype HierarchyEntry = HierarchyEntry(levelLabel: string, name: string)

  /** The parameters of one `getClosestImage` request; `date` is the request time in milliseconds. */
  datatype ClosestImageRequest = ClosestImageRequest(
    action: string, sourceId: int, date: int, difference: int, switchSources: bool)

  /**
   * The image fields a `getClosestImage` answer may carry, each possibly
   * absent: an error payload or a "no match" answer carries none of them.
   * The record holds the same shape, merged from every answer so far.
   */
  datatype ImageDetails = ImageDetails(
    id: Option<int>, date: Option<int>, file: Option<string>, name: Option<string>,
    layeringOrder: Option<int>, width: Option<real>, height: Option<real>,
    refPixelX: Option<real>, refPixelY: Option<real>, scale: Option<real>)

  /** No image field at all: the record before its first answer, or an answer without image data. */
  const NoDetails: ImageDetails :=
    ImageDetails(None, None, None, None, None, None, None, None, None, None)

  /**
   * A `getClosestImage` answer: its image fields, and possibly a (switched)
   * source id and hierarchy, which then replace the record's own.
   */
  datatype ImageResponse = ImageResponse(
    details: ImageDetails, sourceId: Option<int>, hierarchy: Option<seq<HierarchyEntry>>)

  /** `$.extend` on one field: a value the answer carries replaces the old one; a missing one keeps it. */
  function MergeField<T>(current: Option<T>, incoming: Option<T>): Option<T>
  {
    if incoming.Some? then incoming else current
  }

  /** `$.extend(this, result)` on the image fields, field by field. */
  function MergeDetails(current: ImageDetails, incoming: ImageDetails): ImageDetails
  {
    ImageDetails(
      MergeField(current.id, incoming.id), MergeField(current.date, incoming.date),
      MergeField(current.file, incoming.file), MergeField(current.name, incoming.name),
      MergeField(current.layeringOrder, incoming.layeringOrder),
      MergeField(current.width, incoming.width), MergeField(current.height, incoming.height),
      MergeField(current.refPixelX, incoming.refPixelX), MergeField(current.refPixelY, incoming.refPixelY),
      MergeField(current.scale, incoming.scale))
  }

  /** Whether every field the placement is computed from is present. */
  predicate HasGeometry(d: ImageDetails)
  {
    d.width.Some? && d.height.Some? && d.refPixelX.Some? && d.refPixelY.Some? && d.scale.Some?
  }

  /**
   * Merging forgets nothing and invents nothing: an answer without image
   * fields leaves the record as it was, merging the same answer twice is
   * merging it once, and an answer that carries every field replaces the
   * record whatever it held before.
   */
  lemma MergeDetailsLaws(d: ImageDetails, e: ImageDetails)
    ensures MergeDetails(d, NoDetails) == d
    ensures MergeDetails(MergeDetails(d, e), e) == MergeDetails(d, e)
    ensures MergeDetails(NoDetails, e) == e
    ensures HasGeometry(e) ==> HasGeometry(MergeDetails(d, e))
    ensures HasGeometry(d) ==> HasGeometry(MergeDetails(d, e))
  {
  }

  /** Where and how large the image is drawn in the scene. */
  datatype Coordinate = Coordinate(width: real, height: real, x: real, y: real)

  /** The request `_requestImage` issues; sources may be switched only in the minimal output mode. */
  function ClosestImageQuery(sourceId: int, date: int, difference: int, outputType: string)
    : (q: ClosestImageRequest)
    ensures q.action == "getClosestImage"
    ensures q.sourceId == sourceId && q.date == date && q.difference == difference
    ensures q.switchSources <==> outputType == "minimal"
  {
    ClosestImageRequest("getClosestImage", sourceId, date, difference, outputType == "minimal")
  }

  // ---------------------------------------------------------------------------
  // Placement
  // ---------------------------------------------------------------------------

  /**
   * The reference pixel's offset from the image centre in pixels, with the
   * vertical axis flipped: the reference pixel counts rows from the bottom.
   */
  function ReferenceOffset(width: real, height: real, refPixelX: real, refPixelY: real): (o: Point)
    ensures o.x + width / 2.0 == refPixelX
    ensures o.y + refPixelY == height / 2.0
  {
    Point(refPixelX - width / 2.0, -(refPixelY - height / 2.0))
  }

  /**
   * The scene placement of an image `width` x `height` pixels of `scale`
   * arcseconds whose reference pixel is (`refPixelX`, `refPixelY`). The
   * reference pixel lands on the scene origin: `refPixelX` pixels right of
   * the left edge and `height - refPixelY` pixels below the top edge.
   */
  function Placement(width: real, height: real, refPixelX: real, refPixelY: real, scale: real)
    : (c: Coordinate)
    ensures c.width == width * scale && c.height == height * scale
    ensures c.x + refPixelX * scale == 0.0
    ensures c.y + (height - refPixelY) * scale == 0.0
  {
    var offset := ReferenceOffset(width, height, refPixelX, refPixelY);
    var arcWidth := width * scale;
    var arcHeight := height * scale;
    var arcOffset := Point(offset.x * scale, offset.y * scale);
    Coordinate(arcWidth, arcHeight, -(arcWidth / 2.0) - arcOffset.x, -(arcHeight / 2.0) - arcOffset.y)
  }

  /**
   * A reference pixel at the image centre gives an image centred on the
   * scene origin: its top-left corner is half its size up and left.
   */
  lemma CentredReferencePixel(width: real, height: real, scale: real)
    ensures var c := Placement(width, height, width / 2.0, height / 2.0, scale);
            c.x == -(width * scale) / 2.0 && c.y == -(height * scale) / 2.0
  {
    var c := Placement(width, height, width / 2.0, height / 2.0, scale);
    assert c.x == -((width / 2.0) * scale);
    assert c.y == -((height - height / 2.0) * scale);
  }

  /**
   * The placement the record's fields give: a number when every geometry
   * field is present, and None when one is missing (JavaScript computes
   * NaN from `undefined`).
   */
  function PlacementOf(d: ImageDetails): (c: Option<Coordinate>)
    ensures c.Some? <==> HasGeometry(d)
    ensures c.Some? ==> c.value.x + d.refPixelX.value * d.scale.value == 0.0 &&
                        c.value.y + (d.height.value - d.refPixelY.value) * d.scale.value == 0.0 &&
                        c.value.width == d.width.value * d.scale.value &&
                        c.value.height == d.height.value * d.scale.value
  {
    if HasGeometry(d)
    then Some(Placement(d.width.value, d.height.value, d.refPixelX.value, d.refPixelY.value, d.scale.value))
    else None
  }

  /**
   * After a load, the placement is decided by the answer alone when the
   * answer carries every geometry field, and is unchanged when it carries
   * none of the image fields; a first answer that lacks one of them leaves
   * the image without a placement.
   */
  lemma PlacementAfterMerge(d: ImageDetails, e: ImageDetails)
    ensures HasGeometry(e) ==> PlacementOf(MergeDetails(d, e)) == PlacementOf(e)
    ensures e == NoDetails ==> PlacementOf(MergeDetails(d, e)) == PlacementOf(d)
    ensures !HasGeometry(e) ==> PlacementOf(MergeDetails(NoDetails, e)) == None
  {
    MergeDetailsLaws(d, e);
  }

  /** `offsetX`: defined when the reference pixel's column and the width are. */
  function OffsetX(d: ImageDetails): (o: Option<real>)
    ensures o.Some? <==> d.refPixelX.Some? && d.width.Some?
    ensures o.Some? ==> o.value == ReferenceOffset(d.width.value, 0.0, d.refPixelX.value, 0.0).x
  {
    if d.refPixelX.Some? && d.width.Some? then Some(d.refPixelX.value - d.width.value / 2.0) else None
  }

  /** `offsetY`: defined when the reference pixel's row and the height are; measured upwards. */
  function OffsetY(d: ImageDetails): (o: Option<real>)
    ensures o.Some? <==> d.refPixelY.Some? && d.height.Some?
    ensures o.Some? ==> o.value == ReferenceOffset(0.0, d.height.value, 0.0, d.refPixelY.value).y
  {
    if d.refPixelY.Some? && d.height.Some? then Some(-(d.refPixelY.value - d.height.value / 2.0)) else None
  }

  /** The reference pixel recovered from a placement. */
  function ReferencePixelOf(c: Coordinate, height: real, scale: real): (p: Point)
    requires scale != 0.0
  {
    Point(-c.x / scale, height + c.y / scale)
  }

  /** Placement forgets nothing: the reference pixel is recovered from it whenever the scale is non-zero. */
  lemma PlacementRoundTrip(width: real, height: real, refPixelX: real, refPixelY: real, scale: real)
    requires scale != 0.0
    ensures ReferencePixelOf(Placement(width, height, refPixelX, refPixelY, scale), height, scale)
            == Point(refPixelX, refPixelY)
  {
    var c := Placement(width, height, refPixelX, refPixelY, scale);
    assert -c.x == refPixelX * scale;
    assert -c.x / scale == refPixelX;
    assert c.y / scale == -(height - refPixelY);
  }

  // ---------------------------------------------------------------------------
  // The layer name
  // ---------------------------------------------------------------------------

  /** The names of a hierarchy, in order. */
  function Names(h: seq<HierarchyEntry>): (ns: seq<string>)
    ensures |ns| == |h|
    ensures forall i :: 0 <= i < |h| ==> ns[i] == h[i].name
  {
    if h == [] then [] else Names(h[..|h| - 1]) + [h[|h| - 1].name]
  }

  /** The parts joined with "," between neighbours. */
  function Join(parts: seq<string>): string
  {
    if |parts| == 0 then ""
    else if |parts| == 1 then parts[0]
    else parts[0] + "," + Join(parts[1..])
  }

  /** Each part followed by ",": what the loop of `getLayerName` has built after seeing `parts`. */
  function WithCommas(parts: seq<string>): string
  {
    if parts == [] then "" else WithCommas(parts[..|parts| - 1]) + parts[|parts| - 1] + ","
  }

  /** Joining one more part appends "," and the part. */
  lemma {:induction false} JoinSnoc(parts: seq<string>, p: string)
    requires parts != []
    ensures Join(parts + [p]) == Join(parts) + "," + p
    decreases |parts|
  {
    if |parts| == 1 {
      assert (parts + [p])[1..] == [p];
    } else {
      assert (parts + [p])[1..] == parts[1..] + [p];
      JoinSnoc(parts[1..], p);
    }
  }

  /** Dropping the last comma of the loop's accumulator gives the joined names. */
  lemma {:induction false} WithCommasIsJoin(parts: seq<string>)
    requires parts != []
    ensures WithCommas(parts) == Join(parts) + ","
    decreases |parts|
  {
    var init := parts[..|parts| - 1];
    var last := parts[|parts| - 1];
    assert WithCommas(parts) == WithCommas(init) + last + ",";
    if init == [] {
      assert Join(parts) == last;
    } else {
      assert parts == init + [last];
      WithCommasIsJoin(init);
      JoinSnoc(init, last);
      var j := Join(init);
      assert WithCommas(parts) == (j + ",") + last + ",";
      assert Join(parts) == j + "," + last;
    }
  }

  /** The position of the first ",", or `|s|` when there is none. */
  function CommaIndex(s: string): (i: nat)
    ensures i <= |s|
    ensures i < |s| ==> s[i] == ','
    ensures forall j :: 0 <= j < i ==> s[j] != ','
  {
    if s == [] then 0
    else if s[0] == ',' then 0
    else 1 + CommaIndex(s[1..])
  }

  /** A comma-separated string cut at every ",". */
  function Split(s: string): (parts: seq<string>)
    ensures |parts| >= 1
    decreases |s|
  {
    var i := CommaIndex(s);
    if i == |s| then [s] else [s[..i]] + Split(s[i + 1..])
  }

  /** No name contains the separator. */
  predicate CommaFree(parts: seq<string>)
  {
    forall i, j :: 0 <= i < |parts| && 0 <= j < |parts[i]| ==> parts[i][j] != ','
  }

  /**
   * The layer name is a faithful encoding of the hierarchy names: when no
   * name contains a comma, cutting it at the commas gives the names back.
   */
  lemma {:induction false} SplitJoin(parts: seq<string>)
    requires parts != [] && CommaFree(parts)
    ensures Split(Join(parts)) == parts
    decreases |parts|
  {
    var p := parts[0];
    if |parts| == 1 {
      assert CommaIndex(p) == |p|;
    } else {
      var rest := Join(parts[1..]);
      var s := p + "," + rest;
      assert Join(parts) == s;
      assert s[|p|] == ',';
      var i := CommaIndex(s);
      assert i == |p|;
      assert s[..i] == p;
      assert s[i + 1..] == rest;
      SplitJoin(parts[1..]);
    }
  }

  // ---------------------------------------------------------------------------
  // The record
  // ---------------------------------------------------------------------------

  class JP2Image {
    var hierarchy: seq<HierarchyEntry>
    var sourceId: int
    /** The requested observation time, in milliseconds. */
    var requestDate: int
    var difference: int
    /** Every `getClosestImage` request issued so far, oldest first. */
    var requests: seq<ClosestImageRequest>
    /** The image fields merged from every answer so far. */
    var details: ImageDetails
    /** Reference-pixel offset from the image centre (bottom-left origin); None while not a number. */
    var offsetX: Option<real>
    var offsetY: Option<real>
    /** The scene placement; None before the first load and while it is not a number. */
    var coordinate: Option<Coordinate>
    /** The placement seen by each `_onChange` notification, oldest first. */
    var changes: seq<Option<Coordinate>>

    /** The offsets and the placement are those of the fields the record holds. */
    predicate PlacementCurrent()
      reads this
    {
      && offsetX == OffsetX(details)
      && offsetY == OffsetY(details)
      && coordinate == PlacementOf(details)
    }

    /**
     * `init`: records the source and the requested time and asks for the
     * closest image. `outputType` is the page's output mode.
     */
    constructor (hierarchy: seq<HierarchyEntry>, sourceId: int, date: int, difference: int,
                 outputType: string)
      ensures this.hierarchy == hierarchy && this.sourceId == sourceId
      ensures requestDate == date && this.difference == difference
      ensures requests == [ClosestImageQuery(sourceId, date, difference, outputType)]
      ensures details == NoDetails && coordinate == None && changes == []
      ensures PlacementCurrent()
    {
      this.hierarchy := hierarchy;
      this.sourceId := sourceId;
      requestDate := date;
      this.difference := difference;
      requests := [ClosestImageQuery(sourceId, date, difference, outputType)];
      details := NoDetails;
      offsetX := None;
      offsetY := None;
      coordinate := None;
      changes := [];
    }

    /** `_requestImage`: issues one request for the current source, date and difference mode. */
    method RequestImage(outputType: string)
      modifies this`requests
      ensures requests == old(requests) + [ClosestImageQuery(sourceId, requestDate, difference, outputType)]
    {
      requests := requests + [ClosestImageQuery(sourceId, requestDate, difference, outputType)];
    }

    /** `updateDataSource`: a new source; the date is kept; one new request. */
    method UpdateDataSource(hierarchy: seq<HierarchyEntry>, sourceId: int, difference: int,
                            outputType: string)
      modifies this`hierarchy, this`sourceId, this`difference, this`requests
      ensures this.hierarchy == hierarchy && this.sourceId == sourceId && this.difference == difference
      ensures requests == old(requests) + [ClosestImageQuery(sourceId, requestDate, difference, outputType)]
    {
      this.hierarchy := hierarchy;
      this.sourceId := sourceId;
      this.difference := difference;
      RequestImage(outputType);
    }

    /** `updateTime`: a new requested time; the source is kept; one new request. */
    method UpdateTime(date: int, outputType: string)
      modifies this`requestDate, this`requests
      ensures requestDate == date
      ensures requests == old(requests) + [ClosestImageQuery(sourceId, date, difference, outputType)]
    {
      requestDate := date;
      RequestImage(outputType);
    }

    /**
     * `_onImageLoad`: merges whatever the answer carries, recomputes the
     * reference offset and the scene placement from the fields now held,
     * then notifies the owner exactly once, with the new placement already
     * in place. An answer without image fields leaves the placement as it
     * was; one with every geometry field places the image by that answer
     * alone.
     */
    method OnImageLoad(result: ImageResponse)
      modifies this`details, this`sourceId, this`hierarchy, this`offsetX, this`offsetY,
               this`coordinate, this`changes
      ensures details == MergeDetails(old(details), result.details)
      ensures sourceId == (if result.sourceId.Some? then result.sourceId.value else old(sourceId))
      ensures hierarchy == (if result.hierarchy.Some? then result.hierarchy.value else old(hierarchy))
      ensures PlacementCurrent()
      ensures changes == old(changes) + [coordinate]
      ensures result.details == NoDetails && old(PlacementCurrent()) ==> coordinate == old(coordinate)
      ensures HasGeometry(result.details) ==> coordinate == PlacementOf(result.details)
      ensures old(details) == NoDetails && !HasGeometry(result.details) ==> coordinate == None
    {
      if result.sourceId.Some? {
        sourceId := result.sourceId.value;
      }
      if result.hierarchy.Some? {
        hierarchy := result.hierarchy.value;
      }
      details := MergeDetails(details, result.details);
      offsetX := OffsetX(details);
      offsetY := OffsetY(details);
      var placed := PlacementOf(details);
      PlacementAfterMerge(old(details), result.details);
      coordinate := placed;
      changes := changes + [placed];
    }

    /**
     * `getLayerName`: the hierarchy's names joined by ","; the empty
     * hierarchy gives the empty string.
     */
    method GetLayerName() returns (layerName: string)
      ensures layerName == Join(Names(hierarchy))
    {
      var acc := "";
      var i := 0;
      while i < |hierarchy|
        invariant 0 <= i <= |hierarchy|
        invariant acc == WithCommas(Names(hierarchy[..i]))
      {
        assert hierarchy[..i + 1][..i] == hierarchy[..i];
        acc := acc + hierarchy[i].name + ",";
        i := i + 1;
      }
      assert hierarchy[..i] == hierarchy;
      if |acc| == 0 {
        layerName := "";
      } else {
        layerName := acc[..|acc| - 1];
      }
      if hierarchy != [] {
        WithCommasIsJoin(Names(hierarchy));
      }
    }
  }
}
