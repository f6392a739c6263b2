/** The generation history of src/lib/storage.ts: a list of image records
    kept as JSON text in one `localStorage` slot. A save puts the new record
    first and keeps at most fifty; an import writes whatever validated list
    it is given. Every operation reads the slot, works on the
    decoded history and writes the slot back; none of them lets an error
    escape. */
module Storage {
  import opened Options
  import opened JsonValues
  import opened ImageTypes
  import opened BrowserStorage

  const StorageKey := "ai-image-generator-history"
  const MaxHistorySize := 50

  /** `JSON.parse` (`None` where it throws), `JSON.stringify(v)`,
      `JSON.stringify(v, null, 2)`, `new Date(v)` given as the JSON the
      resulting date serialises to (an ISO text, or null for an invalid
      date; `None` where converting `v` to a primitive throws), and which
      reals a JavaScript number (a finite double) holds. */
  datatype Codec = Codec(
    parse: string -> Option<Json>,
    stringify: Json -> string,
    pretty: Json -> string,
    revive: Option<Json> -> Option<Json>,
    isNumber: real -> bool)

  /** Every number inside `v` is one a double holds, so JSON can write it
      out exactly. */
  predicate Renderable(c: Codec, v: Json) {
    match v
    case JNumber(x) => c.isNumber(x)
    case JArray(items) => forall i :: 0 <= i < |items| ==> Renderable(c, items[i])
    case JObject(fields) => forall k :: k in fields ==> Renderable(c, fields[k])
    case _ => true
  }

  /** What the history store relies on of JSON: both renderings of a value
      whose numbers are doubles parse back to that value, the empty text
      does not parse, whatever parses holds only doubles, a date serialises
      to a text or to null, and `new Date` throws only on an array or an
      object, whose conversion to a primitive may call a property that is
      not a function. */
  ghost predicate Lawful(c: Codec) {
    && (forall v :: Renderable(c, v) ==> c.parse(c.stringify(v)) == Some(v))
    && (forall v :: Renderable(c, v) ==> c.parse(c.pretty(v)) == Some(v))
    && c.parse("") == None
    && (forall t :: c.parse(t).Some? ==> Renderable(c, c.parse(t).value))
    && (forall o :: c.revive(o).Some? ==> c.revive(o).value.JString? || c.revive(o).value.JNull?)
    && (forall o: Option<Json> :: o.None? || !(o.value.JArray? || o.value.JObject?) ==> c.revive(o).Some?)
  }

  /** A history as `getGenerationHistory` returns it, each record being the
      image's own properties with `createdAt` revived, and `lastGenerated`
      the revived timestamp or `None` for undefined. */
  datatype History = History(images: seq<Record>, lastGenerated: Option<Json>)

  const EmptyHistory := History([], None)

  /** The record an image becomes in the history; absent optional fields
      are not properties at all, as `JSON.stringify` drops undefined. */
  function RecordOf(image: GeneratedImage): (r: Record)
    ensures "id" in r && r["id"] == JString(image.id) && "url" in r && r["url"] == JString(image.url)
    ensures "prompt" in r && r["prompt"] == JString(image.prompt)
    ensures "createdAt" in r && r["createdAt"] == JString(image.createdAt)
    ensures ("style" in r <==> image.style.Some?) && (image.style.Some? ==> r["style"] == JString(image.style.value))
    ensures ("aspectRatio" in r <==> image.aspectRatio.Some?) && (image.aspectRatio.Some? ==> r["aspectRatio"] == JString(image.aspectRatio.value))
    ensures ("downloadUrl" in r <==> image.downloadUrl.Some?) && (image.downloadUrl.Some? ==> r["downloadUrl"] == JString(image.downloadUrl.value))
    ensures r.Keys <= {"id", "url", "prompt", "createdAt", "style", "aspectRatio", "downloadUrl"}
  {
    var required := map["id" := JString(image.id), "url" := JString(image.url),
                         "prompt" := JString(image.prompt), "createdAt" := JString(image.createdAt)];
    var styled := if image.style.Some? then required["style" := JString(image.style.value)] else required;
    var shaped := if image.aspectRatio.Some? then styled["aspectRatio" := JString(image.aspectRatio.value)] else styled;
    if image.downloadUrl.Some? then shaped["downloadUrl" := JString(image.downloadUrl.value)] else shaped
  }

  /** The JSON value of a list of records. */
  function RecordsJson(images: seq<Record>): (r: seq<Json>)
    ensures |r| == |images|
    ensures forall k :: 0 <= k < |r| ==> r[k] == JObject(images[k])
  {
    seq(|images|, k requires 0 <= k < |images| => JObject(images[k]))
  }

  /** The JSON value `JSON.stringify` renders a history from. */
  function HistoryJson(h: History): (v: Json)
    ensures Field(Some(v), "images") == Some(JArray(RecordsJson(h.images)))
    ensures Field(Some(v), "lastGenerated") == h.lastGenerated
  {
    var images := JArray(RecordsJson(h.images));
    if h.lastGenerated.Some? then JObject(map["images" := images, "lastGenerated" := h.lastGenerated.value])
    else JObject(map["images" := images])
  }

  /** Every number in the records is a double. */
  predicate RenderableImages(c: Codec, images: seq<Record>) {
    forall k :: 0 <= k < |images| ==> Renderable(c, JObject(images[k]))
  }

  /** Every number in the history is a double. */
  predicate RenderableHistory(c: Codec, h: History) {
    && RenderableImages(c, h.images)
    && (h.lastGenerated.Some? ==> Renderable(c, h.lastGenerated.value))
  }

  /** A history's JSON holds only doubles exactly when the history does. */
  lemma HistoryJsonRenderable(c: Codec, h: History)
    ensures Renderable(c, HistoryJson(h)) <==> RenderableHistory(c, h)
  {
    var v := HistoryJson(h);
    var items := RecordsJson(h.images);
    assert v.fields["images"] == JArray(items);
    assert Renderable(c, JArray(items)) <==> RenderableHistory(c, h.(lastGenerated := None));
    if h.lastGenerated.Some? {
      assert v.fields["lastGenerated"] == h.lastGenerated.value;
      assert v.fields.Keys == {"images", "lastGenerated"};
    } else {
      assert v.fields.Keys == {"images"};
    }
  }

  // ---------------------------------------------------------------------
  // Loading
  // ---------------------------------------------------------------------

  /** `({...img, createdAt: new Date(img.createdAt)})` neither throws: the
      element is not null and its `createdAt` converts to a date. */
  predicate Revivable(c: Codec, item: Json) {
    !item.JNull? && c.revive(Field(Some(item), "createdAt")).Some?
  }

  /** `({...img, createdAt: new Date(img.createdAt)})` for a revivable
      element: its own properties, with `createdAt` replaced by the revived
      date. */
  function Revived(c: Codec, item: Json): (r: Record)
    requires Revivable(c, item)
    ensures "createdAt" in r && Some(r["createdAt"]) == c.revive(Field(Some(item), "createdAt"))
    ensures forall key :: key in Spread(item) && key != "createdAt" ==> key in r && r[key] == Spread(item)[key]
    ensures r.Keys == Spread(item).Keys + {"createdAt"}
  {
    Spread(item)["createdAt" := c.revive(Field(Some(item), "createdAt")).value]
  }

  /** `items.map(...)` with Revived; `None` where it throws, which is when
      an element is null and reading its `createdAt` fails, or when
      `new Date` throws on its `createdAt`. */
  function ReviveImages(c: Codec, items: seq<Json>): (r: Option<seq<Record>>)
    ensures r.None? <==> exists k :: 0 <= k < |items| && !Revivable(c, items[k])
    ensures r.Some? ==> |r.value| == |items|
    ensures r.Some? ==> forall k :: 0 <= k < |items| ==> r.value[k] == Revived(c, items[k])
  {
    if forall k :: 0 <= k < |items| ==> Revivable(c, items[k])
    then Some(seq(|items|, k requires 0 <= k < |items| => Revived(c, items[k])))
    else None
  }

  /** The history a parsed value decodes to, `None` where decoding throws:
      `parsed.images.map` throws unless `images` is an array, an element
      throws when it is not revivable, and a truthy `lastGenerated` throws
      when `new Date` does. */
  function HistoryOfJson(c: Codec, parsed: Json): (r: Option<History>)
    ensures r.Some? ==> Field(Some(parsed), "images").Some? && Field(Some(parsed), "images").value.JArray?
    ensures r.Some? ==> ReviveImages(c, Field(Some(parsed), "images").value.items) == Some(r.value.images)
    ensures r.Some? ==> (r.value.lastGenerated.Some? <==> Truthy(Field(Some(parsed), "lastGenerated")))
    ensures r.Some? && r.value.lastGenerated.Some? ==> r.value.lastGenerated == c.revive(Field(Some(parsed), "lastGenerated"))
    ensures (&& Field(Some(parsed), "images").Some? && Field(Some(parsed), "images").value.JArray?
             && ReviveImages(c, Field(Some(parsed), "images").value.items).Some?
             && (Truthy(Field(Some(parsed), "lastGenerated")) ==> c.revive(Field(Some(parsed), "lastGenerated")).Some?))
            ==> r.Some?
  {
    var images := Field(Some(parsed), "images");
    if images.None? || !images.value.JArray? then None
    else
      match ReviveImages(c, images.value.items)
      case None => None
      case Some(records) =>
        var last := Field(Some(parsed), "lastGenerated");
        if !Truthy(last) then Some(History(records, None))
        else
          match c.revive(last)
          case None => None
          case Some(date) => Some(History(records, Some(date)))
  }

  /** `getGenerationHistory` given what `getItem` returned: the empty
      history when nothing is stored, the text does not parse, or it does
      not decode; otherwise the decoded history. */
  function LoadHistory(c: Codec, stored: Option<string>): (r: History)
    ensures stored.None? || stored == Some("") ==> r == EmptyHistory
    ensures stored.Some? && c.parse(stored.value).None? ==> r == EmptyHistory
    ensures stored.Some? && stored.value != "" && c.parse(stored.value).Some? ==>
      r == HistoryOfJson(c, c.parse(stored.value).value).GetOr(EmptyHistory)
  {
    if stored.None? || stored.value == "" then EmptyHistory
    else
      match c.parse(stored.value)
      case None => EmptyHistory
      case Some(parsed) => HistoryOfJson(c, parsed).GetOr(EmptyHistory)
  }

  /** `getGenerationHistory()`: the empty history while the slot is unset. */
  function GenerationHistory(ls: LocalStorage, c: Codec): (r: History)
    reads ls
    ensures StorageKey !in ls.items ==> r == EmptyHistory
    ensures StorageKey in ls.items ==> r == LoadHistory(c, Some(ls.items[StorageKey]))
  {
    LoadHistory(c, ls.GetItem(StorageKey))
  }

  /** The own properties of a value whose numbers are doubles hold only
      doubles. */
  lemma SpreadRenderable(c: Codec, v: Json)
    requires Renderable(c, v)
    ensures forall key :: key in Spread(v) ==> Renderable(c, Spread(v)[key])
  {
    if v.JArray? {
      forall key | key in Spread(v)
        ensures Renderable(c, Spread(v)[key])
      {
        var i :| 0 <= i < |v.items| && v.items[i] == Spread(v)[key];
      }
    }
  }

  /** Whatever is loaded holds only doubles: parsed text does, and a
      revived date is a text or null. */
  lemma LoadedHistoryRenderable(c: Codec, stored: Option<string>)
    ensures Lawful(c) ==> RenderableHistory(c, LoadHistory(c, stored))
  {
    if Lawful(c) && stored.Some? && stored.value != "" && c.parse(stored.value).Some? {
      var parsed := c.parse(stored.value).value;
      var r := HistoryOfJson(c, parsed);
      if r.Some? {
        var items := parsed.fields["images"].items;
        assert Renderable(c, parsed);
        assert Renderable(c, JArray(items));
        forall k | 0 <= k < |r.value.images|
          ensures Renderable(c, JObject(r.value.images[k]))
        {
          var rec := r.value.images[k];
          assert rec == Revived(c, items[k]);
          SpreadRenderable(c, items[k]);
          forall key | key in rec
            ensures Renderable(c, rec[key])
          {
            if key == "createdAt" {
              assert c.revive(Field(Some(items[k]), "createdAt")).value.JString? || c.revive(Field(Some(items[k]), "createdAt")).value.JNull?;
            }
          }
        }
        if r.value.lastGenerated.Some? {
          assert c.revive(Field(Some(parsed), "lastGenerated")).value.JString? || c.revive(Field(Some(parsed), "lastGenerated")).value.JNull?;
        }
      }
    }
  }

  /** Reviving leaves the records as they are: every `createdAt` is the
      text of a valid date, which a further `new Date(...)` maps to itself. */
  predicate StableImages(c: Codec, images: seq<Record>) {
    forall k :: 0 <= k < |images| ==>
      "createdAt" in images[k] && c.revive(Some(images[k]["createdAt"])) == Some(images[k]["createdAt"])
  }

  /** Reviving leaves the history as it is: the records are stable, and the
      `lastGenerated` timestamp is the text of a valid date too. */
  predicate Stable(c: Codec, h: History) {
    && StableImages(c, h.images)
    && (h.lastGenerated.Some? ==> Truthy(h.lastGenerated) && c.revive(h.lastGenerated) == h.lastGenerated)
  }

  /** A stable history of doubles written to the slot is read back
      unchanged. */
  lemma StoredHistoryLoads(c: Codec, h: History)
    requires Lawful(c) && Stable(c, h) && RenderableHistory(c, h)
    ensures LoadHistory(c, Some(c.stringify(HistoryJson(h)))) == h
  {
    HistoryJsonRenderable(c, h);
    var v := HistoryJson(h);
    var text := c.stringify(v);
    assert c.parse(text) == Some(v);
    assert text != "";
    var items := RecordsJson(h.images);
    var revived := ReviveImages(c, items);
    assert revived.Some?;
    forall k | 0 <= k < |items|
      ensures revived.value[k] == h.images[k]
    {
      assert revived.value[k] == Revived(c, JObject(h.images[k]));
    }
    assert revived.value == h.images;
  }

  // ---------------------------------------------------------------------
  // Saving
  // ---------------------------------------------------------------------

  /** The list after `unshift(rec)` and the cut to MaxHistorySize: `rec`
      first, then the oldest entries that still fit, in their order. */
  function SavedImages(images: seq<Record>, rec: Record): (r: seq<Record>)
    ensures |r| == if |images| < MaxHistorySize then |images| + 1 else MaxHistorySize
    ensures r[0] == rec && r[1..] == images[..|r| - 1]
  {
    var all := [rec] + images;
    if |all| > MaxHistorySize then all[..MaxHistorySize] else all
  }

  /** Saving into a full history drops exactly its last, oldest, entry. */
  lemma SaveEvictsOldest(images: seq<Record>, rec: Record)
    requires |images| == MaxHistorySize
    ensures SavedImages(images, rec) + [images[MaxHistorySize - 1]] == [rec] + images
  {
    var r := SavedImages(images, rec);
    assert r == [rec] + images[..MaxHistorySize - 1];
    assert images[..MaxHistorySize - 1] + [images[MaxHistorySize - 1]] == images;
  }

  /** The history `saveGeneratedImage` writes, with `now` the ISO text of
      `new Date()`. */
  function SavedHistory(h: History, image: GeneratedImage, now: string): History {
    History(SavedImages(h.images, RecordOf(image)), Some(JString(now)))
  }

  /** What remains stored after an attempt to write `text`: a write that
      would exceed the quota leaves the slot as it was. */
  function AfterWrite(ls: LocalStorage, items: map<string, string>, text: string): map<string, string>
    reads ls
  {
    if ls.fits(items[StorageKey := text]) then items[StorageKey := text] else items
  }

  /** `saveGeneratedImage(image)`. */
  method SaveGeneratedImage(ls: LocalStorage, c: Codec, image: GeneratedImage, now: string)
    modifies ls
    ensures ls.items == AfterWrite(ls, old(ls.items), c.stringify(HistoryJson(SavedHistory(old(GenerationHistory(ls, c)), image, now))))
  {
    var history := GenerationHistory(ls, c);
    var images := [RecordOf(image)] + history.images;
    if |images| > MaxHistorySize {
      images := images[..MaxHistorySize];
    }
    history := History(images, Some(JString(now)));
    // A QuotaExceededError is caught and logged: the caller sees nothing.
    var written := ls.SetItem(StorageKey, c.stringify(HistoryJson(history)));
  }

  /** After a save of an image with a valid timestamp into a history whose
      records have valid dates and only doubles, loading yields the saved
      history. The old `lastGenerated` does not matter: save replaces it. */
  lemma SaveThenLoad(c: Codec, h: History, image: GeneratedImage, now: string)
    requires Lawful(c) && StableImages(c, h.images) && RenderableImages(c, h.images)
    requires c.revive(Some(JString(image.createdAt))) == Some(JString(image.createdAt))
    requires now != "" && c.revive(Some(JString(now))) == Some(JString(now))
    ensures LoadHistory(c, Some(c.stringify(HistoryJson(SavedHistory(h, image, now))))) == SavedHistory(h, image, now)
    ensures |SavedHistory(h, image, now).images| <= MaxHistorySize
  {
    var s := SavedHistory(h, image, now);
    var rec := RecordOf(image);
    assert forall key :: key in rec ==> rec[key].JString?;
    forall k | 0 <= k < |s.images|
      ensures "createdAt" in s.images[k] && c.revive(Some(s.images[k]["createdAt"])) == Some(s.images[k]["createdAt"])
      ensures Renderable(c, JObject(s.images[k]))
    {
      if k > 0 {
        assert s.images[k] == s.images[1..][k - 1] == h.images[k - 1];
      }
    }
    StoredHistoryLoads(c, s);
  }

  /** A record whose `createdAt` was loaded from an invalid date holds null,
      and `new Date(null)` is the epoch: saving next to such a record does
      not load back as the history saved. */
  lemma SaveOfInvalidDateDoesNotRoundTrip(c: Codec, image: GeneratedImage, now: string)
    requires c.parse("") == None
    requires var s := SavedHistory(History([map["createdAt" := JNull]], None), image, now);
             c.parse(c.stringify(HistoryJson(s))) == Some(HistoryJson(s))
    requires c.revive(Some(JNull)) == Some(JString("1970-01-01T00:00:00.000Z"))
    ensures var s := SavedHistory(History([map["createdAt" := JNull]], None), image, now);
            LoadHistory(c, Some(c.stringify(HistoryJson(s)))) != s
  {
    var s := SavedHistory(History([map["createdAt" := JNull]], None), image, now);
    var v := HistoryJson(s);
    assert c.stringify(v) != "";
    var items := RecordsJson(s.images);
    assert s.images[1] == map["createdAt" := JNull];
    var loaded := LoadHistory(c, Some(c.stringify(v)));
    if loaded != EmptyHistory {
      assert ReviveImages(c, items) == Some(loaded.images);
      assert loaded.images[1] == Revived(c, items[1]);
      assert loaded.images[1]["createdAt"] == JString("1970-01-01T00:00:00.000Z");
    }
  }

  // ---------------------------------------------------------------------
  // Deleting and clearing
  // ---------------------------------------------------------------------

  /** `img.id === imageId`. */
  predicate HasId(rec: Record, id: string) {
    "id" in rec && rec["id"] == JString(id)
  }

  /** `images.filter(img => img.id !== imageId)`. */
  function WithoutId(images: seq<Record>, id: string): (r: seq<Record>)
    ensures forall x :: x in r <==> x in images && !HasId(x, id)
    ensures (forall k :: 0 <= k < |images| ==> !HasId(images[k], id)) ==> r == images
    ensures |r| <= |images|
  {
    if images == [] then []
    else
      var rest := WithoutId(images[1..], id);
      assert forall x :: x in images <==> x == images[0] || x in images[1..];
      if HasId(images[0], id) then rest else [images[0]] + rest
  }

  /** Filtering keeps the order: it distributes over concatenation. */
  lemma {:induction false} WithoutIdAppend(a: seq<Record>, b: seq<Record>, id: string)
    ensures WithoutId(a + b, id) == WithoutId(a, id) + WithoutId(b, id)
  {
    if a == [] {
      assert a + b == b;
    } else {
      assert (a + b)[1..] == a[1..] + b;
      WithoutIdAppend(a[1..], b, id);
    }
  }

  /** `deleteImageFromHistory(imageId)`. */
  method DeleteImageFromHistory(ls: LocalStorage, c: Codec, id: string)
    modifies ls
    ensures var h := old(GenerationHistory(ls, c));
            ls.items == AfterWrite(ls, old(ls.items), c.stringify(HistoryJson(History(WithoutId(h.images, id), h.lastGenerated))))
  {
    var history := GenerationHistory(ls, c);
    history := history.(images := WithoutId(history.images, id));
    // A failed write is caught and logged: the caller sees nothing.
    var written := ls.SetItem(StorageKey, c.stringify(HistoryJson(history)));
  }

  /** After a delete from a stable history of doubles, loading yields the
      history without the records of that id. */
  lemma DeleteThenLoad(c: Codec, h: History, id: string)
    requires Lawful(c) && Stable(c, h) && RenderableHistory(c, h)
    ensures var d := History(WithoutId(h.images, id), h.lastGenerated);
            LoadHistory(c, Some(c.stringify(HistoryJson(d)))) == d
  {
    var d := History(WithoutId(h.images, id), h.lastGenerated);
    forall k | 0 <= k < |d.images|
      ensures "createdAt" in d.images[k] && c.revive(Some(d.images[k]["createdAt"])) == Some(d.images[k]["createdAt"])
      ensures Renderable(c, JObject(d.images[k]))
    {
      assert d.images[k] in h.images;
    }
    StoredHistoryLoads(c, d);
  }

  /** `clearGenerationHistory()`: the slot is gone and loading yields the
      empty history. */
  method ClearGenerationHistory(ls: LocalStorage)
    modifies ls
    ensures ls.items == old(ls.items) - {StorageKey}
    ensures forall c: Codec :: GenerationHistory(ls, c) == EmptyHistory
  {
    ls.RemoveItem(StorageKey);
  }

  // ---------------------------------------------------------------------
  // Export and import
  // ---------------------------------------------------------------------

  /** `exportHistory()`: the loaded history, indented. */
  function ExportHistory(ls: LocalStorage, c: Codec): (text: string)
    reads ls
    ensures Lawful(c) ==> c.parse(text) == Some(HistoryJson(GenerationHistory(ls, c)))
  {
    LoadedHistoryRenderable(c, ls.GetItem(StorageKey));
    HistoryJsonRenderable(c, GenerationHistory(ls, c));
    c.pretty(HistoryJson(GenerationHistory(ls, c)))
  }

  /** `!img.id || !img.url || !img.prompt || !img.createdAt` is false. A
      null element fails too, since reading its `id` throws. */
  predicate Complete(img: Json)
    ensures Complete(img) ==> img.JObject? && {"id", "url", "prompt", "createdAt"} <= img.fields.Keys
  {
    && Truthy(Field(Some(img), "id"))
    && Truthy(Field(Some(img), "url"))
    && Truthy(Field(Some(img), "prompt"))
    && Truthy(Field(Some(img), "createdAt"))
  }

  /** A parsed payload `importHistory` accepts: an `images` array of
      complete elements. A null payload fails, since reading its `images`
      throws. */
  predicate Importable(parsed: Json)
    ensures Importable(parsed) ==> parsed.JObject? && "images" in parsed.fields && parsed.fields["images"].JArray?
    ensures Importable(parsed) ==> JNull !in parsed.fields["images"].items
  {
    var images := Field(Some(parsed), "images");
    && images.Some? && images.value.JArray?
    && forall k :: 0 <= k < |images.value.items| ==> Complete(images.value.items[k])
  }

  /** `importHistory(jsonData)`: true, with the payload written, exactly
      when it parses, is importable and fits; otherwise false with the slot
      untouched. */
  method ImportHistory(ls: LocalStorage, c: Codec, jsonData: string) returns (ok: bool)
    modifies ls
    ensures ok <==> && c.parse(jsonData).Some? && Importable(c.parse(jsonData).value)
                    && ls.fits(old(ls.items)[StorageKey := c.stringify(c.parse(jsonData).value)])
    ensures ok ==> ls.items == old(ls.items)[StorageKey := c.stringify(c.parse(jsonData).value)]
    ensures !ok ==> ls.items == old(ls.items)
  {
    var parsed := c.parse(jsonData);
    if parsed.None? {
      return false;
    }
    var images := Field(parsed, "images");
    if !Truthy(images) || !images.value.JArray? {
      return false;
    }
    var items := images.value.items;
    var i := 0;
    while i < |items|
      invariant 0 <= i <= |items|
      invariant forall k :: 0 <= k < i ==> Complete(items[k])
    {
      if !Complete(items[i]) {
        return false;
      }
      i := i + 1;
    }
    ok := ls.SetItem(StorageKey, c.stringify(parsed.value));
  }

  /** Once an import has written its payload, loading yields one record per
      element of its `images`, each the element revived, and a timestamp
      exactly when the payload has a truthy `lastGenerated`; but when
      `new Date` throws on some `createdAt` or on a truthy `lastGenerated`,
      loading yields the empty history instead. */
  lemma ImportThenLoad(c: Codec, jsonData: string)
    requires Lawful(c) && c.parse(jsonData).Some? && Importable(c.parse(jsonData).value)
    ensures var parsed := c.parse(jsonData).value;
            var items := parsed.fields["images"].items;
            var last := Field(Some(parsed), "lastGenerated");
            var h := LoadHistory(c, Some(c.stringify(parsed)));
            var revives := && (forall k :: 0 <= k < |items| ==> c.revive(Some(items[k].fields["createdAt"])).Some?)
                           && (Truthy(last) ==> c.revive(last).Some?);
            && (revives ==>
                 && |h.images| == |items|
                 && (forall k :: 0 <= k < |items| ==> Revivable(c, items[k]) && h.images[k] == Revived(c, items[k]))
                 && (h.lastGenerated.Some? <==> Truthy(last)))
            && (!revives ==> h == EmptyHistory)
  {
    var parsed := c.parse(jsonData).value;
    var text := c.stringify(parsed);
    assert c.parse(text) == Some(parsed);
    assert text != "";
  }

  /** `{"toString": 1}`: an object whose conversion to a primitive throws,
      as its own `toString` is not a function. */
  const BadDate := JObject(map["toString" := JNumber(1.0)])

  /** A payload whose one element has `BadDate` as its `createdAt`. */
  const BadDatePayload := JObject(map["images" := JArray([JObject(map[
    "id" := JString("a"), "url" := JString("b"), "prompt" := JString("c"), "createdAt" := BadDate])])])

  /** Such a payload passes import's check, but once written the history
      loaded afterwards is empty, since `new Date` throws on its
      `createdAt`. */
  lemma ImportBadDateExample(c: Codec)
    requires c.parse("") == None && c.parse(c.stringify(BadDatePayload)) == Some(BadDatePayload)
    requires c.revive(Some(BadDate)) == None
    ensures Importable(BadDatePayload)
    ensures LoadHistory(c, Some(c.stringify(BadDatePayload))) == EmptyHistory
  {
    var items := BadDatePayload.fields["images"].items;
    assert Complete(items[0]);
    assert !Revivable(c, items[0]);
    assert c.stringify(BadDatePayload) != "";
  }

  /** Every record has a truthy `id`, `url`, `prompt` and `createdAt`. */
  predicate AllComplete(h: History) {
    forall k :: 0 <= k < |h.images| ==> Complete(JObject(h.images[k]))
  }

  /** The export of a stable, complete history of doubles parses, is
      importable, and once written loads back as the same history. */
  lemma ExportImportRoundTrip(c: Codec, h: History)
    requires Lawful(c) && Stable(c, h) && AllComplete(h) && RenderableHistory(c, h)
    ensures c.parse(c.pretty(HistoryJson(h))) == Some(HistoryJson(h))
    ensures Importable(HistoryJson(h))
    ensures LoadHistory(c, Some(c.stringify(HistoryJson(h)))) == h
  {
    var items := RecordsJson(h.images);
    assert forall k :: 0 <= k < |items| ==> Complete(items[k]);
    HistoryJsonRenderable(c, h);
    StoredHistoryLoads(c, h);
  }

  /** `importHistory(exportHistory())` followed by `getGenerationHistory()`:
      the import succeeds when the write fits, and the history loaded
      afterwards is the one loaded before. */
  method ExportThenImport(ls: LocalStorage, c: Codec) returns (ok: bool)
    requires Lawful(c) && Stable(c, GenerationHistory(ls, c)) && AllComplete(GenerationHistory(ls, c))
    modifies ls
    ensures ok <==> ls.fits(old(ls.items)[StorageKey := c.stringify(HistoryJson(old(GenerationHistory(ls, c))))])
    ensures GenerationHistory(ls, c) == old(GenerationHistory(ls, c))
  {
    var h := GenerationHistory(ls, c);
    LoadedHistoryRenderable(c, ls.GetItem(StorageKey));
    ExportImportRoundTrip(c, h);
    var text := ExportHistory(ls, c);
    ok := ImportHistory(ls, c, text);
  }
}
