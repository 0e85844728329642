/**
 * The Giga-Peach browser database (services/storage.ts): a `gallery` store
 * with key path `id` and a non-unique `timestamp` index, and a `presets`
 * store with key path `id`. Each exported function is one atomic operation
 * on a `GalleryDb` object.
 */
module GalleryStorage {
  import opened Wrappers
  import opened ObjectStore

  /** `GeneratedImage` of types.ts. */
  datatype GeneratedImage = GeneratedImage(
    id: string,
    batchId: Option<string>,
    url: string,
    prompt: string,
    aspectRatio: string,
    resolution: string,
    timestamp: int,
    styleId: Option<string>,
    referenceImages: Option<seq<string>>,
    isFavorite: Option<bool>)

  /** `StylePreset` of types.ts (`defaultParams` is not modelled). */
  datatype StylePreset = StylePreset(
    id: string,
    name: string,
    description: string,
    icon: Option<string>,
    referenceImages: Option<seq<string>>)

  /** A gallery record as the `timestamp` index orders it. */
  function ImageRow(image: GeneratedImage): Row<GeneratedImage> {
    Row(image.timestamp, image.id, image)
  }

  /** A preset record; the presets store is read in primary-key order, so every index key is 0. */
  function PresetRow(preset: StylePreset): Row<StylePreset> {
    Row(0, preset.id, preset)
  }

  /** A well-formed gallery store: a table whose rows are the rows of their images. */
  predicate GalleryRows(rows: seq<Row<GeneratedImage>>) {
    Table(rows) && forall r :: r in rows ==> r == ImageRow(r.value)
  }

  predicate PresetRows(rows: seq<Row<StylePreset>>) {
    Table(rows) && forall r :: r in rows ==> r == PresetRow(r.value)
  }

  /** DEFAULT_PRESETS of constants.ts. */
  const DefaultPresets: seq<StylePreset> := [
    StylePreset("none", "Default", "", None, None),
    StylePreset("watercolor", "Watercolor", "Soft watercolor style, natural blending effects, warm tones, artistic strokes", Some("\U{1F3A8}"), None),
    StylePreset("cyberpunk", "Cyberpunk", "Neon lights, rainy night city, high-tech low-life aesthetic, futuristic", Some("\U{1F303}"), None),
    StylePreset("anime", "Anime", "Exquisite lines, bright colors, Japanese anime character design style", Some("\U{1F338}"), None),
    StylePreset("photoreal", "Photorealistic", "High-definition photography texture, natural lighting, realistic details, 8k", Some("\U{1F4F7}"), None),
    StylePreset("minimal", "Minimalist", "Simple geometric shapes, flat design, clean and neat, vector art", Some("\U{2B1C}"), None),
    StylePreset("3d-render", "3D Render", "C4D texture, soft lighting, 3D modeling, octane render", Some("\U{1F3B2}"), None)
  ]

  function PresetRowsOf(presets: seq<StylePreset>): (rows: seq<Row<StylePreset>>)
    ensures |rows| == |presets|
    ensures forall k :: 0 <= k < |presets| ==> rows[k] == PresetRow(presets[k])
  {
    seq(|presets|, k requires 0 <= k < |presets| => PresetRow(presets[k]))
  }

  /** The default presets have distinct ids, so seeding stores every one of them. */
  lemma DefaultPresetIdsDistinct()
    ensures UniqueIds(PresetRowsOf(DefaultPresets))
  {
    var rows := PresetRowsOf(DefaultPresets);
    forall i, j | 0 <= i < j < |rows| ensures rows[i].id != rows[j].id {
      assert rows[i].id[0] != rows[j].id[0];
    }
  }

  /** Seeding an empty presets store stores exactly the default presets, each one once. */
  lemma SeededStoreHoldsDefaults()
    ensures forall p :: p in Values(PutAll([], PresetRowsOf(DefaultPresets))) <==> p in DefaultPresets
    ensures |PutAll([], PresetRowsOf(DefaultPresets))| == |DefaultPresets|
  {
    DefaultPresetIdsDistinct();
    SeededStoreHolds(DefaultPresets);
  }

  /** Seeding an empty presets store with presets of distinct ids stores exactly those presets, each one once. */
  lemma SeededStoreHolds(presets: seq<StylePreset>)
    requires UniqueIds(PresetRowsOf(presets))
    ensures forall p :: p in Values(PutAll([], PresetRowsOf(presets))) <==> p in presets
    ensures |PutAll([], PresetRowsOf(presets))| == |presets|
  {
    var rows := PresetRowsOf(presets);
    PutAllDistinct([], rows);
    var seeded := PutAll([], rows);
    var vs := Values(seeded);
    forall p ensures p in vs <==> p in presets {
      if p in vs {
        var k :| 0 <= k < |vs| && vs[k] == p;
        assert seeded[k] in rows;
        var m :| 0 <= m < |rows| && rows[m] == seeded[k];
        assert p == presets[m];
      }
      if p in presets {
        var m :| 0 <= m < |presets| && presets[m] == p;
        assert rows[m] in seeded;
        var k :| 0 <= k < |seeded| && seeded[k] == rows[m];
        assert vs[k] == p;
      }
    }
  }

  /** Putting the record of a preset keeps the presets store well formed. */
  lemma PutPresetRow(rows: seq<Row<StylePreset>>, row: Row<StylePreset>)
    requires PresetRows(rows) && row == PresetRow(row.value)
    ensures PresetRows(Put(rows, row))
  {
  }

  /** The first put of a remaining run of puts. */
  lemma PutAllStep<T(!new)>(rows: seq<Row<T>>, rs: seq<Row<T>>, i: nat)
    requires Table(rows) && i < |rs|
    ensures PutAll(rows, rs[i..]) == PutAll(Put(rows, rs[i]), rs[i + 1..])
  {
    assert rs[i..][1..] == rs[i + 1..];
  }

  // ---------------------------------------------------------------------
  // Listing and pagination over the gallery rows

  /** Number of leading rows whose index key is below `t`. */
  function BelowCount(rows: seq<Row<GeneratedImage>>, t: int): (n: nat)
    ensures n <= |rows|
    ensures forall k :: 0 <= k < n ==> rows[k].indexKey < t
    ensures Ordered(rows) ==> forall k :: n <= k < |rows| ==> rows[k].indexKey >= t
  {
    if rows == [] || rows[0].indexKey >= t then 0
    else
      assert Ordered(rows) ==> Ordered(rows[1..]) by {
        if Ordered(rows) { OrderedHead(rows); }
      }
      1 + BelowCount(rows[1..], t)
  }

  /** The end of the cursor's key range: `upperBound(t, true)` when `t` is truthy, the whole index otherwise. */
  function RangeEnd(rows: seq<Row<GeneratedImage>>, lastTimestamp: Option<int>): (n: nat)
    ensures n <= |rows|
    ensures !Truthy(lastTimestamp) ==> n == |rows|
  {
    if Truthy(lastTimestamp) then BelowCount(rows, lastTimestamp.value) else |rows|
  }

  /** JavaScript truthiness of an optional number. */
  predicate Truthy(t: Option<int>) {
    t.Some? && t.value != 0
  }

  /** What `getPaginatedGallery(limit, lastTimestamp)` resolves to. */
  function Page(rows: seq<Row<GeneratedImage>>, limit: int, lastTimestamp: Option<int>): (page: seq<GeneratedImage>)
    ensures limit <= 0 ==> page == []
    ensures limit >= 0 ==> |page| <= limit
  {
    var inRange := NewestFirst(rows[..RangeEnd(rows, lastTimestamp)]);
    if limit <= 0 then [] else if limit < |inRange| then inRange[..limit] else inRange
  }

  /** The gallery listing is newest first. */
  lemma {:induction false} NewestFirstNonIncreasing(rows: seq<Row<GeneratedImage>>)
    requires GalleryRows(rows)
    ensures forall i, j :: 0 <= i < j < |rows| ==> NewestFirst(rows)[i].timestamp >= NewestFirst(rows)[j].timestamp
  {
    var vs := NewestFirst(rows);
    var n := |rows|;
    forall i, j | 0 <= i < j < n ensures vs[i].timestamp >= vs[j].timestamp {
      assert RowLt(rows[n - 1 - j], rows[n - 1 - i]);
      assert rows[n - 1 - j] in rows && rows[n - 1 - i] in rows;
    }
  }

  /** A page is newest first. */
  lemma PageNonIncreasing(rows: seq<Row<GeneratedImage>>, limit: int, lastTimestamp: Option<int>)
    requires GalleryRows(rows)
    ensures var p := Page(rows, limit, lastTimestamp);
      forall i, j :: 0 <= i < j < |p| ==> p[i].timestamp >= p[j].timestamp
  {
    var hi := RangeEnd(rows, lastTimestamp);
    var sub := rows[..hi];
    assert GalleryRows(sub) by {
      assert forall r :: r in sub ==> r in rows;
    }
    NewestFirstNonIncreasing(sub);
  }

  /** With a truthy `lastTimestamp` every record on the page is strictly older. */
  lemma PageBelowBound(rows: seq<Row<GeneratedImage>>, limit: int, t: int)
    requires GalleryRows(rows) && t != 0
    ensures forall x :: x in Page(rows, limit, Some(t)) ==> x.timestamp < t
  {
    var hi := BelowCount(rows, t);
    var inRange := NewestFirst(rows[..hi]);
    forall x | x in inRange ensures x.timestamp < t {
      var k :| 0 <= k < |inRange| && inRange[k] == x;
      var r := rows[hi - 1 - k];
      assert r in rows;
    }
    var p := Page(rows, limit, Some(t));
    assert forall x :: x in p ==> x in inRange;
  }

  /**
   * The records in range are exactly the tail of the newest-first listing
   * after the records at or above the bound, and a page is a prefix of them
   * holding `limit` of them, or all of them when fewer are in range.
   */
  lemma PageIsPrefixOfListing(rows: seq<Row<GeneratedImage>>, limit: int, lastTimestamp: Option<int>)
    requires GalleryRows(rows)
    ensures var inRange := NewestFirst(rows[..RangeEnd(rows, lastTimestamp)]);
      var above := NewestFirst(rows[RangeEnd(rows, lastTimestamp)..]);
      && NewestFirst(rows) == above + inRange
      && (Truthy(lastTimestamp) ==> forall x :: x in above ==> x.timestamp >= lastTimestamp.value)
      && (!Truthy(lastTimestamp) ==> above == [])
      && Page(rows, limit, lastTimestamp) <= inRange
      && (limit >= 0 ==> |Page(rows, limit, lastTimestamp)| == if limit < |inRange| then limit else |inRange|)
  {
    var hi := RangeEnd(rows, lastTimestamp);
    NewestFirstSplit(rows, hi);
    if Truthy(lastTimestamp) {
      AboveBound(rows, lastTimestamp.value);
    }
  }

  /** The records from the end of a truthy cursor's range on are at least as new as the bound. */
  lemma AboveBound(rows: seq<Row<GeneratedImage>>, t: int)
    requires GalleryRows(rows)
    ensures forall x :: x in NewestFirst(rows[BelowCount(rows, t)..]) ==> x.timestamp >= t
  {
    var hi := BelowCount(rows, t);
    var tail := rows[hi..];
    var above := NewestFirst(tail);
    assert forall k :: 0 <= k < |tail| ==> tail[k].indexKey >= t by {
      assert Ordered(rows);
      forall k | 0 <= k < |tail| ensures tail[k].indexKey >= t {
        assert tail[k] == rows[hi + k];
      }
    }
    forall k | 0 <= k < |above| ensures above[k].timestamp >= t {
      var r := tail[|tail| - 1 - k];
      assert r in rows;
    }
  }

  /** Without a bound a page is the start of `getGallery()`. */
  lemma UnboundedPageIsListingPrefix(rows: seq<Row<GeneratedImage>>, limit: int, lastTimestamp: Option<int>)
    requires GalleryRows(rows) && !Truthy(lastTimestamp)
    ensures Page(rows, limit, lastTimestamp) <= NewestFirst(rows)
    ensures 0 <= limit <= |rows| ==> |Page(rows, limit, lastTimestamp)| == limit
    ensures limit >= |rows| ==> Page(rows, limit, lastTimestamp) == NewestFirst(rows)
  {
    assert rows[..|rows|] == rows;
  }

  /** The database: both object stores. */
  class GalleryDb {
    var gallery: seq<Row<GeneratedImage>>
    var presets: seq<Row<StylePreset>>

    predicate Valid()
      reads this
    {
      GalleryRows(gallery) && PresetRows(presets)
    }

    constructor()
      ensures Valid() && gallery == [] && presets == []
    {
      gallery := [];
      presets := [];
    }

    /** `saveImage`: `put` into the gallery. */
    method SaveImage(image: GeneratedImage)
      requires Valid()
      modifies this
      ensures Valid()
      ensures gallery == Put(old(gallery), ImageRow(image))
      ensures ImageRow(image) in gallery
      ensures forall r :: r in old(gallery) && r.id != image.id ==> r in gallery
      ensures forall r :: r in gallery ==> r == ImageRow(image) || (r in old(gallery) && r.id != image.id)
      ensures presets == old(presets)
    {
      gallery := Put(gallery, ImageRow(image));
    }

    /** `deleteImage`: `delete` from the gallery. */
    method DeleteImage(id: string)
      requires Valid()
      modifies this
      ensures Valid()
      ensures gallery == RemoveId(old(gallery), id)
      ensures forall r :: r in gallery <==> r in old(gallery) && r.id != id
      ensures presets == old(presets)
    {
      RemoveIdKeepsTable(gallery, id);
      gallery := RemoveId(gallery, id);
    }

    /** `clearGallery`: the gallery is emptied, the presets kept. */
    method ClearGallery()
      requires Valid()
      modifies this
      ensures Valid()
      ensures gallery == [] && presets == old(presets)
    {
      gallery := [];
    }

    /** `getGallery`: the whole index reversed, newest first. */
    function GetGallery(): (images: seq<GeneratedImage>)
      requires Valid()
      reads this
      ensures images == NewestFirst(gallery)
      ensures |images| == |gallery|
      ensures forall r :: r in gallery ==> r.value in images
      ensures forall i, j :: 0 <= i < j < |images| ==> images[i].timestamp >= images[j].timestamp
    {
      NewestFirstNonIncreasing(gallery);
      var images := NewestFirst(gallery);
      assert forall r :: r in gallery ==> r.value in images by {
        forall r | r in gallery ensures r.value in images {
          var k :| 0 <= k < |gallery| && gallery[k] == r;
          assert images[|gallery| - 1 - k] == r.value;
        }
      }
      images
    }

    /** `getPaginatedGallery`: a `'prev'` cursor over the range, pushing records while fewer than `limit` are held. */
    method GetPaginatedGallery(limit: int, lastTimestamp: Option<int>) returns (results: seq<GeneratedImage>)
      requires Valid()
      ensures results == Page(gallery, limit, lastTimestamp)
    {
      var hi := RangeEnd(gallery, lastTimestamp);
      ghost var inRange := NewestFirst(gallery[..hi]);
      var cursor := hi;
      results := [];
      while cursor > 0 && |results| < limit
        invariant 0 <= cursor <= hi
        invariant results == inRange[..hi - cursor]
        invariant limit <= 0 ==> cursor == hi
        invariant limit > 0 ==> |results| <= limit
      {
        assert inRange[hi - cursor] == gallery[cursor - 1].value;
        assert inRange[..hi - cursor + 1] == inRange[..hi - cursor] + [inRange[hi - cursor]];
        results := results + [gallery[cursor - 1].value];
        cursor := cursor - 1;
      }
      if limit > 0 && cursor == 0 {
        assert inRange[..hi] == inRange;
      }
    }

    /** `savePreset`: `put` into the presets. */
    method SavePreset(preset: StylePreset)
      requires Valid()
      modifies this
      ensures Valid()
      ensures presets == Put(old(presets), PresetRow(preset))
      ensures PresetRow(preset) in presets
      ensures forall r :: r in old(presets) && r.id != preset.id ==> r in presets
      ensures gallery == old(gallery)
    {
      presets := Put(presets, PresetRow(preset));
    }

    /** `deletePreset`: `delete` from the presets. */
    method DeletePreset(id: string)
      requires Valid()
      modifies this
      ensures Valid()
      ensures presets == RemoveId(old(presets), id)
      ensures forall r :: r in presets <==> r in old(presets) && r.id != id
      ensures gallery == old(gallery)
    {
      RemoveIdKeepsTable(presets, id);
      presets := RemoveId(presets, id);
    }

    /** `forEach(p => store.put(p))` over the records of the presets to seed. */
    method SeedPresets(defaults: seq<Row<StylePreset>>)
      requires Valid()
      requires forall k :: 0 <= k < |defaults| ==> defaults[k] == PresetRow(defaults[k].value)
      modifies this
      ensures Valid()
      ensures presets == PutAll(old(presets), defaults)
      ensures gallery == old(gallery)
    {
      ghost var start := presets;
      var i := 0;
      assert defaults[0..] == defaults;
      while i < |defaults|
        invariant 0 <= i <= |defaults|
        invariant PresetRows(presets)
        invariant PutAll(presets, defaults[i..]) == PutAll(start, defaults)
        invariant gallery == old(gallery)
      {
        PutAllStep(presets, defaults, i);
        PutPresetRow(presets, defaults[i]);
        presets := Put(presets, defaults[i]);
        i := i + 1;
      }
    }

    /** `getAllPresets`: an empty store is seeded with the defaults, which are returned; otherwise the stored presets are. */
    method GetAllPresets() returns (result: seq<StylePreset>)
      requires Valid()
      modifies this
      ensures Valid()
      ensures old(presets) == [] ==> result == DefaultPresets && presets == PutAll([], PresetRowsOf(DefaultPresets))
      ensures old(presets) != [] ==> result == Values(old(presets)) && presets == old(presets)
      ensures gallery == old(gallery)
    {
      if |presets| == 0 {
        SeedPresets(PresetRowsOf(DefaultPresets));
        result := DefaultPresets;
      } else {
        result := Values(presets);
      }
    }
  }
}
