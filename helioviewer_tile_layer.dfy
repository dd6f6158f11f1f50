/**
 * One image layer of the viewer: it owns a JPEG 2000 image record, puts the
 * resolved image into the tiled-image renderer (removing the previous item
 * first), forwards opacity, visibility and stacking order to the renderer
 * item, builds tile URLs, preloads tiles for the next zoom level and
 * serialises itself for the user settings.
 */
module TileLayer {
  import opened Basics
  import Jp2

  /** The renderer's handle for an item it displays (`this.layer` in the layer). */
  type ItemHandle = nat

  /**
   * The layer's traffic with the renderer, in order: the calls it makes, and
   * the renderer's report (`ItemAdded`, the `success` callback's `e.item`)
   * that an `addTiledImage` request produced item `item` at the opacity the
   * request asked for. An `AddTiledImage` request passes the x, y and width
   * of `placement`; None stands for a placement that is not a number.
   */
  datatype RendererCall =
    | RemoveItem(item: ItemHandle)
    | AddTiledImage(url: string, index: int, placement: Option<Jp2.Coordinate>, opacity: real)
    | ItemAdded(item: ItemHandle, opacity: real)
    | SetItemIndex(item: ItemHandle, index: int)
    | SetItemOpacity(item: ItemHandle, opacity: real)

  /** Pixel post-processors the renderer can run on an item's tiles. */
  datatype Processor = Colormap(sourceId: int) | TransparentBlack

  /** One entry of the renderer's filter list: which items, which processors. */
  datatype Filter = Filter(items: seq<ItemHandle>, processors: seq<Processor>)

  /** The tiled-image renderer, as the layer sees it. */
  class Viewer {
    var calls: seq<RendererCall>
    var filters: seq<Filter>

    constructor ()
      ensures calls == [] && filters == []
    {
      calls := [];
      filters := [];
    }
  }

  /** A query-string value; `Empty` is what an undefined value encodes to. */
  datatype ParamValue =
    | Text(s: string)
    | Whole(n: int)
    | Decimal6(units: int)
    | LyrDate(raw: string)
    | Empty

  datatype QueryParam = QueryParam(key: string, value: ParamValue)

  /** A tile request: the API address and its parameters in order. */
  datatype TileUrl = TileUrl(api: string, params: seq<QueryParam>)

  /** The page's `<link rel="preload">` elements, by the address they point at. */
  class Page {
    var preloads: seq<TileUrl>

    constructor ()
      ensures preloads == []
    {
      preloads := [];
    }
  }

  /** `baseDiffTime` as the layer may hold it: a number, null, or a date string. */
  datatype DiffTime = DiffTimeNumber(n: int) | DiffTimeNull | DiffTimeText(s: string)

  // ---------------------------------------------------------------------------
  // Tile URLs
  // ---------------------------------------------------------------------------

  /**
   * `x.toFixed(6)`, as the integer number of millionths it prints: the
   * nearest one, ties away from zero.
   */
  function ToFixed6(x: real): (units: int)
    ensures Abs(units as real - x * 1000000.0) <= 0.5
    ensures x >= 0.0 ==> units >= 0
  {
    if x >= 0.0 then (x * 1000000.0 + 0.5).Floor else -((-x * 1000000.0 + 0.5).Floor)
  }

  /** A scale that already has at most six decimals is printed as it is, so equal scales give equal cache keys. */
  lemma ToFixed6Exact(units: int)
    ensures ToFixed6(units as real / 1000000.0) == units
  {
    var x := units as real / 1000000.0;
    assert x * 1000000.0 == units as real;
    if x >= 0.0 {
      assert (units as real + 0.5).Floor == units;
    } else {
      assert -x * 1000000.0 == (-units) as real;
      assert ((-units) as real + 0.5).Floor == -units;
    }
  }

  /** The date string used when `baseDiffTime` is a number or null: the page's date and time fields. */
  function BaseDiffTimeText(b: DiffTime, dateField: string, timeField: string): (s: string)
    ensures b.DiffTimeText? ==> s == b.s
    ensures !b.DiffTimeText? ==> s == dateField + " " + timeField
  {
    if b.DiffTimeText? then b.s else dateField + " " + timeField
  }

  /**
   * Once a number or null `baseDiffTime` has been replaced by the text it
   * stands for (as `toJSON` does), later edits of the page's date and time
   * fields no longer change it.
   */
  lemma FrozenBaseDiffTime(b: DiffTime, dateField: string, timeField: string,
                           laterDate: string, laterTime: string)
    ensures var frozen := DiffTimeText(BaseDiffTimeText(b, dateField, timeField));
            BaseDiffTimeText(frozen, laterDate, laterTime) == BaseDiffTimeText(b, dateField, timeField)
    ensures !b.DiffTimeText? && laterDate + " " + laterTime != dateField + " " + timeField ==>
              BaseDiffTimeText(b, laterDate, laterTime) != BaseDiffTimeText(b, dateField, timeField)
  {
  }

  /** The parameter names of a tile request, in the order they are sent. */
  const TileParamKeys: seq<string> :=
    ["action", "id", "imageScale", "x", "y", "difference", "diffCount", "diffTime", "baseDiffTime"]

  /** The parameters of a `getTile` request. */
  function TileParams(id: ParamValue, imageScale: real, x: int, y: int, difference: int,
                      diffCount: int, diffTime: int, baseDiffTime: string): (ps: seq<QueryParam>)
    ensures |ps| == |TileParamKeys|
    ensures forall i :: 0 <= i < |ps| ==> ps[i].key == TileParamKeys[i]
    ensures ps[0].value == Text("getTile") && ps[1].value == id
    ensures ps[2].value == Decimal6(ToFixed6(imageScale))
    ensures ps[3].value == Whole(x) && ps[4].value == Whole(y)
    ensures ps[5].value == Whole(difference) && ps[6].value == Whole(diffCount)
    ensures ps[7].value == Whole(diffTime)
    ensures ps[8].value == LyrDate(baseDiffTime)
  {
    [QueryParam("action", Text("getTile")),
     QueryParam("id", id),
     QueryParam("imageScale", Decimal6(ToFixed6(imageScale))),
     QueryParam("x", Whole(x)),
     QueryParam("y", Whole(y)),
     QueryParam("difference", Whole(difference)),
     QueryParam("diffCount", Whole(diffCount)),
     QueryParam("diffTime", Whole(diffTime)),
     QueryParam("baseDiffTime", LyrDate(baseDiffTime))]
  }

  /** The scale of the tile to preload: half the viewport scale when zooming in, twice it otherwise. */
  function PreloadScale(viewportScale: real, zoom: bool): (s: real)
    ensures zoom ==> s + s == viewportScale
    ensures !zoom ==> s == viewportScale + viewportScale
  {
    if zoom then viewportScale / 2.0 else viewportScale * 2.0
  }

  /**
   * Preloading in one direction and then in the other comes back to the
   * scale started from, and a positive scale is preloaded at a finer
   * scale when zooming in and a coarser one when zooming out.
   */
  lemma PreloadScaleRoundTrip(viewportScale: real)
    ensures PreloadScale(PreloadScale(viewportScale, true), false) == viewportScale
    ensures PreloadScale(PreloadScale(viewportScale, false), true) == viewportScale
    ensures viewportScale > 0.0 ==>
              PreloadScale(viewportScale, true) < viewportScale < PreloadScale(viewportScale, false)
  {
  }

  /** No address occurs twice. */
  predicate Distinct(urls: seq<TileUrl>)
  {
    forall i, j :: 0 <= i < j < |urls| ==> urls[i] != urls[j]
  }

  /** Adds a preload link for `url` unless one is already on the page. */
  function AddPreload(preloads: seq<TileUrl>, url: TileUrl): (r: seq<TileUrl>)
    ensures url in r
    ensures forall u :: u in preloads ==> u in r
    ensures forall u :: u in r ==> u in preloads || u == url
    ensures url in preloads ==> r == preloads
    ensures Distinct(preloads) ==> Distinct(r)
  {
    if url in preloads then preloads else preloads + [url]
  }

  // ---------------------------------------------------------------------------
  // Colour tables, opacity and serialisation
  // ---------------------------------------------------------------------------

  /** The processors `_applyColorTable` installs for a source that has a colour map. */
  function ColorProcessors(sourceId: int, applyTransparency: seq<int>): (ps: seq<Processor>)
    ensures 1 <= |ps| <= 2 && ps[0] == Colormap(sourceId)
    ensures TransparentBlack in ps <==> sourceId in applyTransparency
  {
    if sourceId in applyTransparency then [Colormap(sourceId), TransparentBlack]
    else [Colormap(sourceId)]
  }

  /** The opacity an item should show for the layer's state: opacity/100 when visible, 0 when hidden. */
  function DisplayedOpacity(visible: bool, opacity: real): (o: real)
    ensures !visible ==> o == 0.0
    ensures visible ==> o * 100.0 == opacity
    ensures 0.0 <= opacity <= 100.0 ==> 0.0 <= o <= 1.0
  {
    if visible then opacity / 100.0 else 0.0
  }

  /** Whether a logged call sets the opacity of item `h`: its creation, or a later `setOpacity`. */
  predicate SetsOpacityOf(c: RendererCall, h: ItemHandle)
  {
    (c.ItemAdded? || c.SetItemOpacity?) && c.item == h
  }

  /** The opacity item `h` shows according to the log: the last one it was created or set with, if any. */
  function LastOpacitySent(calls: seq<RendererCall>, h: ItemHandle): Option<real>
  {
    if calls == [] then None
    else
      var c := calls[|calls| - 1];
      if SetsOpacityOf(c, h) then Some(c.opacity)
      else LastOpacitySent(calls[..|calls| - 1], h)
  }

  /** `getImageUrl`: the tile-source description's address; a missing file name reads "undefined". */
  function ImageUrl(imageServer: string, file: Option<string>): string
  {
    imageServer + (if file.Some? then file.value else "undefined") + "/info.json"
  }

  /** The removal `removeFromViewer` makes: the current item, if there is one. */
  function Removal(item: Option<ItemHandle>): (cs: seq<RendererCall>)
    ensures item.None? ==> cs == []
    ensures item.Some? ==> cs == [RemoveItem(item.value)]
  {
    if item.Some? then [RemoveItem(item.value)] else []
  }

  /** Calls that neither create item `h` nor set its opacity leave the opacity it shows as it was. */
  lemma {:induction false} LastOpacityAfter(calls: seq<RendererCall>, more: seq<RendererCall>,
                                            h: ItemHandle)
    requires forall c :: c in more ==> !SetsOpacityOf(c, h)
    ensures LastOpacitySent(calls + more, h) == LastOpacitySent(calls, h)
    decreases |more|
  {
    if more != [] {
      var init := more[..|more| - 1];
      assert (calls + more)[..|calls + more| - 1] == calls + init;
      assert more[|more| - 1] in more;
      LastOpacityAfter(calls, init, h);
    } else {
      assert calls + more == calls;
    }
  }

  /** A hierarchy level as `toJSON` lists it under `uiLabels`. */
  datatype UiLabel = UiLabel(levelLabel: string, name: string)

  /** The `uiLabels` array: one entry per hierarchy level, in order. */
  function UiLabels(h: seq<Jp2.HierarchyEntry>): (ls: seq<UiLabel>)
    ensures |ls| == |h|
    ensures forall i :: 0 <= i < |h| ==> ls[i] == UiLabel(h[i].levelLabel, h[i].name)
  {
    if h == [] then [] else UiLabels(h[..|h| - 1]) + [UiLabel(h[|h| - 1].levelLabel, h[|h| - 1].name)]
  }

  /** `label -> name` for every level; a later level with the same label overwrites an earlier one. */
  function LabelMap(h: seq<Jp2.HierarchyEntry>): map<string, string>
  {
    if h == [] then map[]
    else LabelMap(h[..|h| - 1])[h[|h| - 1].levelLabel := h[|h| - 1].name]
  }

  /** Every label of the hierarchy is a key of the map, and nothing else is. */
  lemma {:induction false} LabelMapKeys(h: seq<Jp2.HierarchyEntry>)
    ensures forall k :: k in LabelMap(h) <==> exists i :: 0 <= i < |h| && h[i].levelLabel == k
    decreases |h|
  {
    if h != [] {
      var init := h[..|h| - 1];
      LabelMapKeys(init);
      forall k ensures k in LabelMap(h) <==> exists i :: 0 <= i < |h| && h[i].levelLabel == k {
        assert LabelMap(h) == LabelMap(init)[h[|h| - 1].levelLabel := h[|h| - 1].name];
        if k in LabelMap(h) && k != h[|h| - 1].levelLabel {
          assert k in LabelMap(init);
          var i :| 0 <= i < |init| && init[i].levelLabel == k;
          assert h[i].levelLabel == k;
        }
        if exists i :: 0 <= i < |h| && h[i].levelLabel == k {
          var i :| 0 <= i < |h| && h[i].levelLabel == k;
          if i < |init| {
            assert init[i].levelLabel == k;
          }
        }
      }
    }
  }

  /** A level whose label no later level repeats is serialised as `label -> name`. */
  lemma {:induction false} LabelMapLastWins(h: seq<Jp2.HierarchyEntry>, i: int)
    requires 0 <= i < |h|
    requires forall j :: i < j < |h| ==> h[j].levelLabel != h[i].levelLabel
    ensures h[i].levelLabel in LabelMap(h) && LabelMap(h)[h[i].levelLabel] == h[i].name
    decreases |h|
  {
    if i < |h| - 1 {
      var init := h[..|h| - 1];
      assert init[i] == h[i];
      LabelMapLastWins(init, i);
    }
  }

  /** Keys `toJSON` writes after the labels, so a label spelled like one of them is overwritten. */
  const FixedKeys: set<string> :=
    {"uiLabels", "visible", "opacity", "difference", "diffCount", "diffTime", "baseDiffTime"}

  /** The object `toJSON` returns. */
  datatype LayerJson = LayerJson(
    uiLabels: seq<UiLabel>, labels: map<string, string>, visible: bool, opacity: real,
    difference: int, diffCount: int, diffTime: int, baseDiffTime: string)

  // ---------------------------------------------------------------------------
  // The layer
  // ---------------------------------------------------------------------------

  class HelioviewerTileLayer {
    const viewer: Viewer
    const page: Page
    const image: Jp2.JP2Image
    /** `Helioviewer.api`: the address tile requests go to. */
    const api: string

    var sourceId: int
    var order: int
    /** Opacity in percent, 0 to 100. */
    var opacity: real
    var visible: bool
    /** The renderer item currently standing for this layer (`this.layer`). */
    var item: Option<ItemHandle>
    var viewportScale: real
    var difference: int
    var diffCount: int
    var diffTime: int
    var baseDiffTime: DiffTime
    var loaded: bool
    var layeringOrder: Option<int>

    /**
     * `init`: stores the layer's settings and creates its image record,
     * which immediately asks for the closest image. No renderer item exists
     * yet.
     */
    constructor (viewer: Viewer, page: Page, api: string, hierarchy: seq<Jp2.HierarchyEntry>,
                 sourceId: int, date: int, viewportScale: real, visible: bool, opacity: real,
                 difference: int, diffCount: int, diffTime: int, baseDiffTime: DiffTime,
                 order: int, outputType: string)
      ensures this.viewer == viewer && this.page == page && this.api == api
      ensures fresh(image)
      ensures image.hierarchy == hierarchy && image.sourceId == sourceId && image.requestDate == date
      ensures image.requests == [Jp2.ClosestImageQuery(sourceId, date, difference, outputType)]
      ensures image.details == Jp2.NoDetails && image.coordinate == None && image.PlacementCurrent()
      ensures this.sourceId == sourceId && this.order == order && this.opacity == opacity
      ensures this.visible == visible && this.viewportScale == viewportScale
      ensures this.difference == difference && this.diffCount == diffCount
      ensures this.diffTime == diffTime && this.baseDiffTime == baseDiffTime
      ensures item == None && !loaded && layeringOrder == None
    {
      this.viewer := viewer;
      this.page := page;
      this.api := api;
      this.sourceId := sourceId;
      this.order := order;
      this.opacity := opacity;
      this.visible := visible;
      this.viewportScale := viewportScale;
      this.difference := difference;
      this.diffCount := diffCount;
      this.diffTime := diffTime;
      this.baseDiffTime := baseDiffTime;
      item := None;
      loaded := false;
      layeringOrder := None;
      image := new Jp2.JP2Image(hierarchy, sourceId, date, difference, outputType);
    }

    /** The item shows the opacity the layer's state calls for. */
    predicate ItemOpacityAgrees()
      reads this, viewer
    {
      item.Some? ==> LastOpacitySent(viewer.calls, item.value) == Some(DisplayedOpacity(visible, opacity))
    }

    /** `removeFromViewer`: removes the current item, when there is one; the handle itself is kept. */
    method RemoveFromViewer()
      modifies viewer`calls
      ensures viewer.calls == old(viewer.calls) + Removal(item)
      ensures old(ItemOpacityAgrees()) ==> ItemOpacityAgrees()
    {
      if item.Some? {
        LastOpacityAfter(viewer.calls, [RemoveItem(item.value)], item.value);
        viewer.calls := viewer.calls + [RemoveItem(item.value)];
      }
    }

    /**
     * `onLoadImage`, the image record's change handler: takes over the
     * record's source and layering order, removes the old item and asks the
     * renderer for a new one, stacked at `-order`, placed and sized by the
     * record's coordinate, at `opacity / 100` whether or not the layer is
     * visible. `imageServer` is the image server's address; a record without
     * a file name gives the address of the file "undefined", as JavaScript's
     * string concatenation does. The fetched tile-source description is not
     * modelled.
     */
    method OnLoadImage(imageServer: string)
      modifies this`loaded, this`layeringOrder, this`sourceId, viewer`calls
      ensures loaded && layeringOrder == image.details.layeringOrder
      ensures sourceId == image.sourceId
      ensures viewer.calls == old(viewer.calls) + Removal(item) +
                [AddTiledImage(ImageUrl(imageServer, image.details.file), -order, image.coordinate, opacity / 100.0)]
      ensures old(ItemOpacityAgrees()) ==> ItemOpacityAgrees()
    {
      loaded := true;
      layeringOrder := image.details.layeringOrder;
      sourceId := image.sourceId;
      var imageUrl := ImageUrl(imageServer, image.details.file);
      RemoveFromViewer();
      var add := AddTiledImage(imageUrl, -order, image.coordinate, opacity / 100.0);
      if item.Some? {
        LastOpacityAfter(viewer.calls, [add], item.value);
      }
      viewer.calls := viewer.calls + [add];
    }

    /**
     * The renderer's success callback for the `addTiledImage` request
     * `request`: item `h` now exists at the opacity that request asked for;
     * it becomes the layer's item and gets its colour table. As written, the
     * request asks for `opacity / 100` whether or not the layer is visible, so
     * a hidden layer whose image reloads is shown again, at its opacity.
     */
    method OnTiledImageAdded(h: ItemHandle, request: RendererCall, colorMaps: set<int>,
                             applyTransparency: seq<int>)
      requires request.AddTiledImage? && request in viewer.calls
      modifies this`item, viewer`filters, viewer`calls
      ensures item == Some(h)
      ensures viewer.calls == old(viewer.calls) + [ItemAdded(h, request.opacity)]
      ensures sourceId in colorMaps ==>
                viewer.filters == [Filter([h], ColorProcessors(sourceId, applyTransparency))] + old(viewer.filters)
      ensures sourceId !in colorMaps ==> viewer.filters == old(viewer.filters)
      ensures ItemOpacityAgrees() <==> request.opacity == DisplayedOpacity(visible, opacity)
      ensures request.opacity == opacity / 100.0 ==> (ItemOpacityAgrees() <==> visible || opacity == 0.0)
    {
      viewer.calls := viewer.calls + [ItemAdded(h, request.opacity)];
      item := Some(h);
      ApplyColorTable(colorMaps, applyTransparency);
    }

    /**
     * `_applyColorTable`: for a source with a colour map, puts a filter for
     * the item in front of the renderer's filters: the colour map, then the
     * black-pixel transparency for the sources listed in `applyTransparency`.
     */
    method ApplyColorTable(colorMaps: set<int>, applyTransparency: seq<int>)
      requires item.Some?
      modifies viewer`filters
      ensures sourceId in colorMaps ==>
                viewer.filters == [Filter([item.value], ColorProcessors(sourceId, applyTransparency))]
                                  + old(viewer.filters)
      ensures sourceId !in colorMaps ==> viewer.filters == old(viewer.filters)
    {
      if sourceId in colorMaps {
        var processors := [Colormap(sourceId)];
        if sourceId in applyTransparency {
          processors := processors + [TransparentBlack];
        }
        assert processors == ColorProcessors(sourceId, applyTransparency);
        viewer.filters := [Filter([item.value], processors)] + viewer.filters;
      }
    }

    /**
     * `getTileURL`: the request for tile (`x`, `y`) at `scale` when one is
     * given, else at the viewport scale. `dateField`/`timeField` are the
     * page's date and time inputs.
     */
    function GetTileURL(x: int, y: int, scale: Option<real>, dateField: string, timeField: string)
      : (u: TileUrl)
      reads this, image
      ensures u.api == api && |u.params| == |TileParamKeys|
      ensures forall i :: 0 <= i < |u.params| ==> u.params[i].key == TileParamKeys[i]
      ensures u.params[0].value == Text("getTile")
      ensures u.params[1].value == (if image.details.id.Some? then Whole(image.details.id.value) else Empty)
      ensures scale.Some? ==> u.params[2].value == Decimal6(ToFixed6(scale.value))
      ensures scale.None? ==> u.params[2].value == Decimal6(ToFixed6(viewportScale))
      ensures u.params[3].value == Whole(x) && u.params[4].value == Whole(y)
      ensures u.params[5].value == Whole(difference) && u.params[6].value == Whole(diffCount)
      ensures u.params[7].value == Whole(diffTime)
      ensures u.params[8].value == LyrDate(BaseDiffTimeText(baseDiffTime, dateField, timeField))
    {
      var imageScale := if scale.None? then viewportScale else scale.value;
      var id := if image.details.id.Some? then Whole(image.details.id.value) else Empty;
      TileUrl(api, TileParams(id, imageScale, x, y, difference, diffCount, diffTime,
                              BaseDiffTimeText(baseDiffTime, dateField, timeField)))
    }

    /**
     * `preloadTile`: adds a preload link for the tile at the next zoom
     * level's scale, unless the page already links to that address.
     */
    method PreloadTile(zoom: bool, x: int, y: int, dateField: string, timeField: string)
      modifies page`preloads
      ensures page.preloads ==
                AddPreload(old(page.preloads),
                           GetTileURL(x, y, Some(PreloadScale(viewportScale, zoom)), dateField, timeField))
    {
      var scale := PreloadScale(viewportScale, zoom);
      var url := GetTileURL(x, y, Some(scale), dateField, timeField);
      page.preloads := AddPreload(page.preloads, url);
    }

    /**
     * `toJSON`: the hierarchy as `uiLabels` and as `label -> name` entries,
     * then the display settings. A numeric or null `baseDiffTime` is first
     * replaced, on the layer itself, by the page's date and time.
     */
    method ToJSON(dateField: string, timeField: string) returns (json: LayerJson)
      modifies this`baseDiffTime
      ensures baseDiffTime == DiffTimeText(BaseDiffTimeText(old(baseDiffTime), dateField, timeField))
      ensures json.uiLabels == UiLabels(image.hierarchy)
      ensures json.labels == LabelMap(image.hierarchy) - FixedKeys
      ensures json.visible == visible && json.opacity == opacity
      ensures json.difference == difference && json.diffCount == diffCount && json.diffTime == diffTime
      ensures json.baseDiffTime == baseDiffTime.s
      ensures forall x, y, scale, laterDate, laterTime ::
                GetTileURL(x, y, scale, laterDate, laterTime) == GetTileURL(x, y, scale, dateField, timeField)
    {
      var h := image.hierarchy;
      var uiLabels := [];
      var labels := map[];
      var i := 0;
      while i < |h|
        invariant 0 <= i <= |h|
        invariant uiLabels == UiLabels(h[..i])
        invariant labels == LabelMap(h[..i])
      {
        assert h[..i + 1][..i] == h[..i];
        uiLabels := uiLabels + [UiLabel(h[i].levelLabel, h[i].name)];
        labels := labels[h[i].levelLabel := h[i].name];
        i := i + 1;
      }
      assert h[..i] == h;
      if !baseDiffTime.DiffTimeText? {
        baseDiffTime := DiffTimeText(dateField + " " + timeField);
      }
      json := LayerJson(uiLabels, labels - FixedKeys, visible, opacity, difference, diffCount,
                        diffTime, baseDiffTime.s);
    }

    /** `setLayerOrder`: stores the order and restacks the item, when there is one, at `itemCount - order`. */
    method SetLayerOrder(order: int, itemCount: int)
      modifies this`order, viewer`calls
      ensures this.order == order
      ensures item.Some? ==> viewer.calls == old(viewer.calls) + [SetItemIndex(item.value, itemCount - order)]
      ensures item.None? ==> viewer.calls == old(viewer.calls)
      ensures old(ItemOpacityAgrees()) ==> ItemOpacityAgrees()
    {
      this.order := order;
      if item.Some? {
        LastOpacityAfter(viewer.calls, [SetItemIndex(item.value, itemCount - order)], item.value);
        viewer.calls := viewer.calls + [SetItemIndex(item.value, itemCount - order)];
      }
    }

    /**
     * `setOpacity`: without an item, nothing changes, not even the stored
     * opacity. With one, the opacity is stored and, when the layer is
     * visible, sent to the item as a fraction.
     */
    method SetOpacity(opacity: real)
      modifies this`opacity, viewer`calls
      ensures item.None? ==> this.opacity == old(this.opacity) && viewer.calls == old(viewer.calls)
      ensures item.Some? && visible ==>
                this.opacity == opacity &&
                viewer.calls == old(viewer.calls) + [SetItemOpacity(item.value, opacity / 100.0)]
      ensures item.Some? && !visible ==> this.opacity == opacity && viewer.calls == old(viewer.calls)
      ensures old(ItemOpacityAgrees()) ==> ItemOpacityAgrees()
    {
      if item.Some? {
        this.opacity := opacity;
        if visible {
          viewer.calls := viewer.calls + [SetItemOpacity(item.value, opacity / 100.0)];
        }
      }
    }

    /**
     * `setVisibility`: stores the flag and sends the item 0 when hidden or
     * `opacity / 100` when shown; the stored opacity is untouched. Without an
     * item the source fails with a TypeError after storing the flag; `ok`
     * is false exactly then.
     */
    method SetVisibility(visible: bool) returns (ok: bool)
      modifies this`visible, viewer`calls
      ensures this.visible == visible
      ensures ok <==> item.Some?
      ensures item.Some? ==>
                viewer.calls == old(viewer.calls) + [SetItemOpacity(item.value, DisplayedOpacity(visible, opacity))]
      ensures item.None? ==> viewer.calls == old(viewer.calls)
      ensures ItemOpacityAgrees()
    {
      this.visible := visible;
      if item.None? {
        return false;
      }
      if !visible {
        viewer.calls := viewer.calls + [SetItemOpacity(item.value, 0.0)];
      } else {
        viewer.calls := viewer.calls + [SetItemOpacity(item.value, opacity / 100.0)];
      }
      return true;
    }
  }
}
