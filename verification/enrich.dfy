/** The enrichment step `enrichElons` and `enrichProducts` share: each row gets
    the photos that point at it and, when its comment relation was loaded, the
    number of messages of that comment. The two differ only in the photo column
    they group by (`elonId` or `productId`), which is the `scope` here. */
module Enrich {
  import opened Common
  import opened Json
  import opened Entities
  import opened Entries

  /** The column a photo is grouped by: `elonId` for elons, `productId` for products. */
  function Owner(p: Photo, scope: CommentScope): Option<string> {
    match scope
    case ElonScope => p.elonId
    case ProductScope => p.productId
  }

  /** The other kind of row a photo may point at. */
  function Other(scope: CommentScope): CommentScope {
    match scope
    case ElonScope => ProductScope
    case ProductScope => ElonScope
  }

  /** The photo points at the row `id`, and `id` is truthy (a photo whose owner
      column is empty or null is skipped by the grouping loop). */
  predicate OwnedBy(p: Photo, scope: CommentScope, id: string) {
    id != "" && Owner(p, scope) == Some(id)
  }

  /** `photoRepo.find({ where: { elonId: In(ids) } })`: the photos whose owner is
      one of `ids`, in table order. */
  function Fetched(table: seq<Photo>, scope: CommentScope, ids: set<string>): (r: seq<Photo>)
    ensures forall p :: p in r ==> p in table && Owner(p, scope).Some? && Owner(p, scope).value in ids
  {
    if table == [] then []
    else
      var last := table[|table| - 1];
      var rest := Fetched(table[..|table| - 1], scope, ids);
      assert forall p :: p in rest ==> p in table;
      if Owner(last, scope).Some? && Owner(last, scope).value in ids then rest + [last] else rest
  }

  /** The photos of the row `id` among `photos`, in their order there. */
  function PhotosOf(photos: seq<Photo>, scope: CommentScope, id: string): (r: seq<Photo>)
    ensures forall p :: p in r <==> p in photos && OwnedBy(p, scope, id)
  {
    if photos == [] then []
    else
      var init := photos[..|photos| - 1];
      var last := photos[|photos| - 1];
      assert photos == init + [last];
      if OwnedBy(last, scope, id) then PhotosOf(init, scope, id) + [last] else PhotosOf(init, scope, id)
  }

  /** Photos are listed per owner in the order they come in. */
  lemma {:induction false} PhotosOfAppend(a: seq<Photo>, b: seq<Photo>, scope: CommentScope, id: string)
    ensures PhotosOf(a + b, scope, id) == PhotosOf(a, scope, id) + PhotosOf(b, scope, id)
  {
    if b != [] {
      var init := b[..|b| - 1];
      assert (a + b)[..|a + b| - 1] == a + init;
      assert (a + b)[|a + b| - 1] == b[|b| - 1];
      PhotosOfAppend(a, init, scope, id);
    } else {
      assert a + b == a;
    }
  }

  /** Fetching by a set of owners loses none of the photos of an owner in the
      set, and keeps their order. */
  lemma {:induction false} FetchedKeepsOwnPhotos(table: seq<Photo>, scope: CommentScope, ids: set<string>, id: string)
    requires id in ids
    ensures PhotosOf(Fetched(table, scope, ids), scope, id) == PhotosOf(table, scope, id)
  {
    if table != [] {
      var init := table[..|table| - 1];
      var last := table[|table| - 1];
      FetchedKeepsOwnPhotos(init, scope, ids, id);
      if Owner(last, scope).Some? && Owner(last, scope).value in ids {
        PhotosOfAppend(Fetched(init, scope, ids), [last], scope, id);
        assert [last][..0] == [];
      }
    }
  }

  /** `photoPaths.map(path => photoRepo.create({ path, elonId: owner, productId: null }))`
      (or the product way round), under the ids the database gives them. */
  function NewPhotos(paths: seq<string>, ids: seq<string>, scope: CommentScope, owner: string): (r: seq<Photo>)
    requires |ids| == |paths|
    ensures |r| == |paths|
    ensures forall i :: 0 <= i < |r| ==> r[i].id == ids[i] && r[i].path == paths[i] && Owner(r[i], scope) == Some(owner)
    ensures forall i :: 0 <= i < |r| ==> Owner(r[i], Other(scope)).None?
  {
    seq(|paths|, i requires 0 <= i < |paths| =>
      match scope
      case ElonScope => Photo(ids[i], paths[i], Some(owner), None)
      case ProductScope => Photo(ids[i], paths[i], None, Some(owner)))
  }

  /** Photos that all belong to `id` are all listed for it. */
  lemma {:induction false} AllOwnedListed(photos: seq<Photo>, scope: CommentScope, id: string)
    requires forall p :: p in photos ==> OwnedBy(p, scope, id)
    ensures PhotosOf(photos, scope, id) == photos
  {
    if photos != [] {
      var init := photos[..|photos| - 1];
      assert photos == init + [photos[|photos| - 1]];
      AllOwnedListed(init, scope, id);
    }
  }

  /** The photos saved for a row come after the ones it had, in path order. */
  lemma NewPhotosListedLast(table: seq<Photo>, paths: seq<string>, ids: seq<string>, scope: CommentScope, owner: string)
    requires |ids| == |paths| && owner != ""
    ensures PhotosOf(table + NewPhotos(paths, ids, scope, owner), scope, owner)
      == PhotosOf(table, scope, owner) + NewPhotos(paths, ids, scope, owner)
  {
    var added := NewPhotos(paths, ids, scope, owner);
    PhotosOfAppend(table, added, scope, owner);
    AllOwnedListed(added, scope, owner);
  }

  /** A row no photo pointed at has exactly the photos saved for it. */
  lemma NewRowHasOnlyNewPhotos(table: seq<Photo>, paths: seq<string>, ids: seq<string>, scope: CommentScope, owner: string)
    requires |ids| == |paths| && owner != ""
    requires forall p :: p in table ==> Owner(p, scope) != Some(owner)
    ensures PhotosOf(table + NewPhotos(paths, ids, scope, owner), scope, owner) == NewPhotos(paths, ids, scope, owner)
  {
    NewPhotosListedLast(table, paths, ids, scope, owner);
    NoneOwnedNoneListed(table, scope, owner);
  }

  lemma {:induction false} NoneOwnedNoneListed(photos: seq<Photo>, scope: CommentScope, id: string)
    requires forall p :: p in photos ==> Owner(p, scope) != Some(id)
    ensures PhotosOf(photos, scope, id) == []
  {
    if photos != [] {
      var init := photos[..|photos| - 1];
      assert photos == init + [photos[|photos| - 1]];
      NoneOwnedNoneListed(init, scope, id);
    }
  }

  /** `photosByElon.get(id) ?? []` */
  function Lookup(groups: map<string, seq<Photo>>, id: string): seq<Photo> {
    if id in groups then groups[id] else []
  }

  /** The grouping loop of the enrichment: `for (const photo of photos)`, skipping
      a falsy owner and pushing the photo onto its owner's list. */
  method GroupPhotos(photos: seq<Photo>, scope: CommentScope) returns (groups: map<string, seq<Photo>>)
    ensures forall id :: Lookup(groups, id) == PhotosOf(photos, scope, id)
    ensures forall id :: id in groups ==> groups[id] != []
  {
    groups := map[];
    for i := 0 to |photos|
      invariant forall id :: Lookup(groups, id) == PhotosOf(photos[..i], scope, id)
      invariant forall id :: id in groups ==> groups[id] != []
    {
      var photo := photos[i];
      assert photos[..i + 1][..i] == photos[..i] && photos[..i + 1][i] == photo;
      var owner := Owner(photo, scope);
      if owner.Some? && owner.value != "" {
        var list := Lookup(groups, owner.value);
        groups := groups[owner.value := list + [photo]];
      }
    }
    assert photos[..|photos|] == photos;
  }

  /** What the enrichment needs of a row: its id, its `commentId` column and the
      id of its `comment` relation when that relation was loaded. */
  datatype Item = Item(id: string, commentId: Option<string>, comment: Option<string>)

  /** The loaded comment with the count added: `{ ...comment, messageCount }`. */
  datatype CommentView = CommentView(id: string, messageCount: int)

  /** What the enrichment adds to one row. */
  datatype Enrichment = Enrichment(photos: seq<Photo>, comment: Option<CommentView>)

  /** `elons.map(e => e.commentId).filter(Boolean)` */
  function CommentIds(items: seq<Item>): (ids: seq<string>)
    ensures |ids| == 0 <==> forall i :: 0 <= i < |items| ==> !Truthy(items[i].commentId)
  {
    if items == [] then []
    else
      var rest := CommentIds(items[1..]);
      assert forall i :: 1 <= i < |items| ==> items[i] == items[1..][i - 1];
      if Truthy(items[0].commentId) then [items[0].commentId.value] + rest else rest
  }

  /** `messageCountByComment`: filled from the rows of the count query, which runs
      only when some row has a truthy `commentId`. */
  function Counts(items: seq<Item>, rows: seq<(string, int)>): map<string, int> {
    if |CommentIds(items)| > 0 then ToMap(rows) else map[]
  }

  /** `messageCountByComment.get(id) ?? 0` */
  function CountOf(counts: map<string, int>, id: string): int {
    if id in counts then counts[id] else 0
  }

  /** The comment part of one enriched row: the loaded comment with its count,
      or nothing when the relation is missing or has a falsy id. */
  function CommentPart(item: Item, counts: map<string, int>): (c: Option<CommentView>)
    ensures c.Some? <==> Truthy(item.comment)
    ensures c.Some? ==> c.value.id == item.comment.value && c.value.messageCount == CountOf(counts, item.comment.value)
  {
    if Truthy(item.comment) then Some(CommentView(item.comment.value, CountOf(counts, item.comment.value))) else None
  }

  /** `elons.map(e => e.id)` */
  function Ids(items: seq<Item>): (ids: set<string>)
    ensures forall i :: 0 <= i < |items| ==> items[i].id in ids
  {
    set i | 0 <= i < |items| :: items[i].id
  }

  /** The enrichment of `items` against the photo table and the rows the
      message-count query returns. */
  method EnrichAll(items: seq<Item>, scope: CommentScope, table: seq<Photo>, countRows: seq<(string, int)>)
    returns (r: seq<Enrichment>)
    ensures |r| == |items|
    ensures forall i :: 0 <= i < |items| ==> r[i].photos == PhotosOf(table, scope, items[i].id)
    ensures forall i :: 0 <= i < |items| ==> r[i].comment == CommentPart(items[i], Counts(items, countRows))
  {
    if |items| == 0 {
      return [];
    }
    var ids := Ids(items);
    var photos := Fetched(table, scope, ids);
    var groups := GroupPhotos(photos, scope);
    var counts: map<string, int> := map[];
    if |CommentIds(items)| > 0 {
      counts := SetAll(countRows);
    }
    assert counts == Counts(items, countRows);
    r := [];
    for i := 0 to |items|
      invariant |r| == i
      invariant forall j :: 0 <= j < i ==> r[j].photos == PhotosOf(table, scope, items[j].id)
      invariant forall j :: 0 <= j < i ==> r[j].comment == CommentPart(items[j], counts)
    {
      var own := Lookup(groups, items[i].id);
      assert own == PhotosOf(table, scope, items[i].id) by {
        assert items[i].id in ids;
        FetchedKeepsOwnPhotos(table, scope, ids, items[i].id);
      }
      r := r + [Enrichment(own, CommentPart(items[i], counts))];
    }
  }

  /** A row whose comment has no count row gets `messageCount` 0. */
  lemma UncountedCommentHasNoMessages(items: seq<Item>, rows: seq<(string, int)>, item: Item)
    requires Truthy(item.comment)
    requires forall j :: 0 <= j < |rows| ==> rows[j].0 != item.comment.value
    ensures CommentPart(item, Counts(items, rows)) == Some(CommentView(item.comment.value, 0))
  {
    if |CommentIds(items)| > 0 {
      AbsentKeyHasNoValue(rows, item.comment.value);
    }
  }

  function PhotoJson(p: Photo): Json {
    JObj(map["id" := JStr(p.id), "path" := JStr(p.path), "elonId" := OptStr(p.elonId), "productId" := OptStr(p.productId)])
  }

  /** `row.photos = …` and, when the comment was loaded,
      `row.comment = { ...row.comment, messageCount }` (of the comment only its
      id is modelled). */
  function Attach(row: map<string, Json>, en: Enrichment): Json {
    var withPhotos := row["photos" := JArr(seq(|en.photos|, i requires 0 <= i < |en.photos| => PhotoJson(en.photos[i])))];
    match en.comment
    case None => JObj(withPhotos)
    case Some(c) => JObj(withPhotos["comment" := JObj(map["id" := JStr(c.id), "messageCount" := JNum(c.messageCount)])])
  }
}
