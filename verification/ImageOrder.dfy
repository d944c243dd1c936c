/** Reordering one product's images under the unique constraint on
    (product, displayOrder), one row update at a time. */
module ImageOrder {
  import opened AuctionRows

  type ImageId = int

  /** The displayOrder of each image of the product. */
  type Orders = map<ImageId, int>

  ghost predicate Unique(orders: Orders) {
    forall x, y :: x in orders && y in orders && x != y ==> orders[x] != orders[y]
  }

  /** Where `x` stands last in the list. */
  function LastIndex(ids: seq<ImageId>, x: ImageId): (n: nat)
    requires x in ids
    ensures n < |ids| && ids[n] == x && forall m :: n < m < |ids| ==> ids[m] != x
  {
    if ids[|ids| - 1] == x then |ids| - 1
    else
      assert x in ids[..|ids| - 1];
      LastIndex(ids[..|ids| - 1], x)
  }

  /** The rows once the images in `ids` have got the numbers from `base` on. */
  function Numbered(orders: Orders, ids: seq<ImageId>, base: int): (r: Orders)
    ensures r.Keys == orders.Keys
    ensures forall x :: x in orders ==> r[x] == if x in ids then base + LastIndex(ids, x) else orders[x]
  {
    map x | x in orders :: if x in ids then base + LastIndex(ids, x) else orders[x]
  }

  lemma NothingNumbered(orders: Orders, none: seq<ImageId>, base: int)
    requires none == []
    ensures Numbered(orders, none, base) == orders
  {
  }

  lemma NumberedNext(orders: Orders, ids: seq<ImageId>, base: int, n: nat)
    requires n < |ids| && ids[n] in orders
    ensures Numbered(orders, ids[..n + 1], base) == Numbered(orders, ids[..n], base)[ids[n] := base + n]
  {
    var now, next := ids[..n], ids[..n + 1];
    forall x | x in orders
      ensures Numbered(orders, next, base)[x] == Numbered(orders, now, base)[ids[n] := base + n][x]
    {
      if x == ids[n] {
        assert next[n] == x;
      } else if x in next {
        assert x in now;
        var m := LastIndex(next, x);
        assert now[m] == x;
        var k := LastIndex(now, x);
        assert next[k] == x;
      }
    }
  }

  // ---- When the two phases go through

  const TEMPORARY: int := 1000

  /** Update `i` of a numbering from `base` meets no other image with its number. */
  ghost predicate FreeAt(orders: Orders, ids: seq<ImageId>, base: int, i: nat) {
    i < |ids| ==>
      forall y :: y in orders && y != ids[i] ==> Numbered(orders, ids[..i], base)[y] != base + i
  }

  ghost predicate AllFree(orders: Orders, ids: seq<ImageId>, base: int) {
    forall i: nat :: FreeAt(orders, ids, base, i)
  }

  /** With the images before it numbered, this is what update `i` meets. */
  lemma FreeNow(orders: Orders, ids: seq<ImageId>, base: int, i: nat, now: Orders)
    requires i < |ids| && now == Numbered(orders, ids[..i], base)
    ensures FreeAt(orders, ids, base, i) <==> forall y :: y in now && y != ids[i] ==> now[y] != base + i
  {
    hide Numbered;
  }

  lemma AllWereFree(orders: Orders, ids: seq<ImageId>, base: int)
    requires forall i: nat :: i < |ids| ==> FreeAt(orders, ids, base, i)
    ensures AllFree(orders, ids, base)
  {
    forall i: nat ensures FreeAt(orders, ids, base, i) {}
  }

  /** No image left out, or not yet renumbered, has the `i`-th temporary number. */
  ghost predicate TemporaryFree(orders: Orders, ids: seq<ImageId>, i: nat) {
    i < |ids| ==> forall y :: y in orders && y !in ids[..i] && y != ids[i] ==> orders[y] != 1000 + i
  }

  /** No image left out of the list has one of the final numbers. */
  ghost predicate FinalFree(orders: Orders, ids: seq<ImageId>) {
    forall y :: y in orders && y !in ids ==> !(0 <= orders[y] < |ids|)
  }

  /** Both phases go through. */
  ghost predicate Fits(orders: Orders, ids: seq<ImageId>) {
    (forall i: nat :: TemporaryFree(orders, ids, i)) && FinalFree(orders, ids)
  }

  lemma FirstPhase(orders: Orders, ids: seq<ImageId>)
    ensures AllFree(orders, ids, TEMPORARY) <==> forall i: nat :: TemporaryFree(orders, ids, i)
  {
    forall i: nat ensures FreeAt(orders, ids, TEMPORARY, i) <==> TemporaryFree(orders, ids, i) {}
  }

  lemma SecondPhase(orders: Orders, ids: seq<ImageId>)
    ensures AllFree(Numbered(orders, ids, TEMPORARY), ids, 0) <==> FinalFree(orders, ids)
  {
    var temps := Numbered(orders, ids, TEMPORARY);
    if y :| y in orders && y !in ids && 0 <= orders[y] < |ids| {
      assert !FreeAt(temps, ids, 0, orders[y]);
    } else {
      forall i: nat ensures FreeAt(temps, ids, 0, i) {
        forall y | i < |ids| && y in temps && y != ids[i] ensures Numbered(temps, ids[..i], 0)[y] != i {
          InPrefix(ids, i, y);
        }
      }
    }
  }

  lemma InPrefix(ids: seq<ImageId>, i: nat, y: ImageId)
    requires i <= |ids|
    ensures y in ids && LastIndex(ids, y) < i ==> y in ids[..i]
  {
    if y in ids && LastIndex(ids, y) < i {
      assert ids[..i][LastIndex(ids, y)] == y;
    }
  }

  lemma BothPhases(orders: Orders, ids: seq<ImageId>)
    ensures Numbered(Numbered(orders, ids, TEMPORARY), ids, 0) == Numbered(orders, ids, 0)
  {
  }

  // ---- Lists without duplicates

  /** The list names every image of the product, and no other. */
  ghost predicate Lists(orders: Orders, ids: seq<ImageId>) {
    OfProduct(orders, ids) && forall x :: x in orders ==> x in ids
  }

  ghost predicate OfProduct(orders: Orders, ids: seq<ImageId>) {
    forall i :: 0 <= i < |ids| ==> ids[i] in orders
  }

  ghost predicate Distinct(ids: seq<ImageId>) {
    forall i, j :: 0 <= i < j < |ids| ==> ids[i] != ids[j]
  }

  function Members(ids: seq<ImageId>): (s: set<ImageId>)
    ensures forall x :: x in s <==> x in ids
  {
    if ids == [] then {} else Members(ids[..|ids| - 1]) + {ids[|ids| - 1]}
  }

  lemma {:induction false} DistinctIffFull(ids: seq<ImageId>)
    ensures |Members(ids)| <= |ids|
    ensures Distinct(ids) <==> |Members(ids)| == |ids|
  {
    if ids != [] {
      var rest, last := ids[..|ids| - 1], ids[|ids| - 1];
      DistinctIffFull(rest);
      DistinctPush(rest, last);
      assert ids == rest + [last];
    }
  }

  lemma DistinctPush(rest: seq<ImageId>, last: ImageId)
    ensures Distinct(rest + [last]) <==> Distinct(rest) && last !in rest
  {
    var ids := rest + [last];
    if last in rest {
      var k :| 0 <= k < |rest| && rest[k] == last;
      assert ids[k] == ids[|rest|];
    } else if Distinct(ids) {
      assert forall i :: 0 <= i < |rest| ==> rest[i] == ids[i];
    }
  }

  /** A list of as many images as there are leaves none out exactly if it names
      none twice. */
  lemma CompleteIffDistinct(orders: Orders, ids: seq<ImageId>)
    requires |ids| == |orders| && OfProduct(orders, ids)
    ensures Distinct(ids) <==> Lists(orders, ids)
  {
    DistinctIffFull(ids);
    assert forall x :: x in Members(ids) ==> x in orders.Keys;
    if Distinct(ids) {
      SameSize(Members(ids), orders.Keys);
    }
    if Lists(orders, ids) {
      AllMembers(orders, ids);
    }
  }

  lemma AllMembers(orders: Orders, ids: seq<ImageId>)
    requires Lists(orders, ids)
    ensures Members(ids) == orders.Keys
  {
    forall x ensures x in Members(ids) <==> x in orders.Keys {}
  }

  lemma SameSize(s: set<ImageId>, t: set<ImageId>)
    requires s <= t && |s| == |t|
    ensures s == t
  {
    assert t == s + (t - s);
  }

  /** With every existing number below 1000, only images left out can be in the
      way, and a list of every image always goes through. */
  lemma FitsBelowTemporary(orders: Orders, ids: seq<ImageId>)
    requires forall x :: x in orders ==> orders[x] < 1000
    ensures Fits(orders, ids) <==> FinalFree(orders, ids)
    ensures Lists(orders, ids) ==> Fits(orders, ids)
  {
  }

  /** Where numbers run from 0 without a gap, a full list goes through exactly
      if it names no image twice: nothing else rejects a duplicate. */
  lemma FitsIffDistinct(orders: Orders, ids: seq<ImageId>)
    requires |ids| == |orders| && OfProduct(orders, ids)
    requires forall x :: x in orders ==> 0 <= orders[x] < |orders| <= 1000
    ensures Fits(orders, ids) <==> Distinct(ids)
  {
    FitsBelowTemporary(orders, ids);
    CompleteIffDistinct(orders, ids);
  }

  /** A list of every image once numbers them 0, 1, 2 and on, in its order. */
  lemma NumberedInOrder(orders: Orders, ids: seq<ImageId>)
    requires Distinct(ids) && Lists(orders, ids)
    ensures Listing(Numbered(orders, ids, 0), ids)
    ensures forall i :: 0 <= i < |ids| ==> Numbered(orders, ids, 0)[ids[i]] == i
  {
    forall i | 0 <= i < |ids| ensures LastIndex(ids, ids[i]) == i {}
  }

  // ---- The images in display order

  /** The list of all images by ascending displayOrder. */
  ghost predicate Listing(orders: Orders, ids: seq<ImageId>) {
    && Lists(orders, ids)
    && (forall i, j :: 0 <= i < j < |ids| ==> orders[ids[i]] < orders[ids[j]])
  }

  lemma {:induction false} ListingUnique(orders: Orders, ids: seq<ImageId>, ids': seq<ImageId>)
    requires Listing(orders, ids) && Listing(orders, ids')
    ensures ids == ids'
  {
    SameStart(orders, ids, ids', |ids|);
    SameStart(orders, ids', ids, |ids'|);
  }

  lemma {:induction false} SameStart(orders: Orders, ids: seq<ImageId>, ids': seq<ImageId>, n: nat)
    requires Listing(orders, ids) && Listing(orders, ids') && n <= |ids|
    ensures n <= |ids'| && ids[..n] == ids'[..n]
  {
    if n > 0 {
      var m := n - 1;
      SameStart(orders, ids, ids', m);
      var k := PositionFrom(orders, ids, ids', m);
      var l := PositionFrom(orders, ids', ids, m);
      assert ids[m] == ids'[m];
    }
  }

  lemma Listed(orders: Orders, ids: seq<ImageId>, x: ImageId)
    requires Lists(orders, ids) && x in orders
    ensures x in ids
  {
  }

  lemma PositionFrom(orders: Orders, ids: seq<ImageId>, ids': seq<ImageId>, m: nat) returns (k: nat)
    requires Listing(orders, ids) && Listing(orders, ids') && m < |ids| && m <= |ids'| && ids[..m] == ids'[..m]
    ensures m <= k < |ids'| && ids'[k] == ids[m]
  {
    Listed(orders, ids', ids[m]);
    k :| 0 <= k < |ids'| && ids'[k] == ids[m];
    assert forall l :: 0 <= l < m ==> ids[..m][l] == ids[l] && ids'[..m][l] == ids'[l];
  }

  function Without(ids: seq<ImageId>, x: ImageId): (r: seq<ImageId>)
    ensures forall y :: y in r <==> y in ids && y != x
    ensures x !in ids ==> r == ids
  {
    if ids == [] then []
    else
      var n := |ids| - 1;
      assert ids == ids[..n] + [ids[n]];
      if ids[n] == x then Without(ids[..n], x) else Without(ids[..n], x) + [ids[n]]
  }

  function MoveToFront(ids: seq<ImageId>, x: ImageId): seq<ImageId> {
    [x] + Without(ids, x)
  }

  /** The others stay in their order. */
  lemma {:induction false} OthersKeepOrder(ids: seq<ImageId>, x: ImageId, k: nat)
    requires Distinct(ids) && k < |ids| && ids[k] == x
    ensures Without(ids, x) == ids[..k] + ids[k + 1..]
  {
    var n := |ids| - 1;
    if k < n {
      OthersKeepOrder(ids[..n], x, k);
      assert ids[..n][..k] == ids[..k];
      assert ids[k + 1..] == ids[..n][k + 1..] + [ids[n]];
    } else {
      assert x !in ids[..n];
      assert ids[..k] + ids[k + 1..] == ids[..n];
    }
  }

  lemma FrontedDistinct(orders: Orders, ids: seq<ImageId>, x: ImageId)
    requires Listing(orders, ids) && x in orders
    ensures Distinct(ids) && Distinct(MoveToFront(ids, x))
    ensures Lists(orders, MoveToFront(ids, x))
  {
    assert Distinct(ids);
    hide Distinct, Without;
    var k := LastIndex(ids, x);
    OthersKeepOrder(ids, x, k);
    FrontMoved(ids, k, MoveToFront(ids, x));
  }

  /** Image `k` in front of the others: `from(m)` is where place `m` took its image. */
  lemma FrontMoved(ids: seq<ImageId>, k: nat, fronted: seq<ImageId>)
    requires Distinct(ids) && k < |ids| && fronted == [ids[k]] + (ids[..k] + ids[k + 1..])
    ensures Distinct(fronted)
  {
    forall i, j | 0 <= i < j < |fronted| ensures fronted[i] != fronted[j] {
      var from := (m: int) => if m == 0 then k else if m <= k then m - 1 else m;
      assert fronted[i] == ids[from(i)] && fronted[j] == ids[from(j)];
    }
  }

  lemma HasMember(s: set<ImageId>)
    ensures s == {} || exists x :: x in s
  {
    if forall x :: x !in s {
      assert s == {};
    }
  }

  // ---- The table

  datatype ReorderError = ImagesNotFound | NotAllImages | NumberTaken

  class Images {
    var orders: Orders

    constructor (orders: Orders)
      requires Unique(orders)
      ensures Valid() && this.orders == orders
    {
      this.orders := orders;
    }

    ghost predicate Valid()
      reads this
    {
      Unique(orders)
    }

    /** One row update.  The database refuses it if another image has the number. */
    method Update(x: ImageId, number: int) returns (ok: bool)
      requires Valid() && x in orders
      modifies this
      ensures Valid()
      ensures ok <==> forall y :: y in old(orders) && y != x ==> old(orders)[y] != number
      ensures orders == if ok then old(orders)[x := number] else old(orders)
    {
      ok := number !in (set y | y in orders && y != x :: orders[y]);
      if ok {
        orders := orders[x := number];
      }
    }

    /** One loop of updates; it stops at the first one refused. */
    method NumberFrom(ids: seq<ImageId>, base: int) returns (ok: bool)
      requires Valid() && OfProduct(orders, ids)
      modifies this
      ensures Valid()
      ensures ok <==> AllFree(old(orders), ids, base)
      ensures ok ==> orders == Numbered(old(orders), ids, base)
    {
      hide FreeAt, Numbered, Unique;
      ghost var before := orders;
      ok := true;
      var n := 0;
      NothingNumbered(before, ids[..0], base);
      while n < |ids|
        invariant 0 <= n <= |ids| && Valid() && orders == Numbered(before, ids[..n], base)
        invariant forall i: nat :: i < n ==> FreeAt(before, ids, base, i)
      {
        FreeNow(before, ids, base, n, orders);
        ok := Update(ids[n], base + n);
        if !ok {
          return;
        }
        NumberedNext(before, ids, base, n);
        n := n + 1;
      }
      assert ids[..|ids|] == ids;
      AllWereFree(before, ids, base);
    }

    /** Both loops, in one transaction: temporary numbers first. */
    method Renumber(ids: seq<ImageId>) returns (ok: bool)
      requires Valid() && OfProduct(orders, ids)
      modifies this
      ensures Valid()
      ensures ok <==> Fits(old(orders), ids)
      ensures orders == if ok then Numbered(old(orders), ids, 0) else old(orders)
    {
      var before := orders;
      ok := NumberFrom(ids, TEMPORARY);
      FirstPhase(before, ids);
      SecondPhase(before, ids);
      BothPhases(before, ids);
      if ok {
        ok := NumberFrom(ids, 0);
      }
      if !ok {
        orders := before;
      }
    }

    method ReorderImages(ids: seq<ImageId>) returns (error: Option<ReorderError>)
      requires Valid()
      modifies this
      ensures Valid()
      ensures error == if !OfProduct(old(orders), ids) then Some(ImagesNotFound)
                       else if |ids| != |old(orders)| then Some(NotAllImages)
                       else if !Fits(old(orders), ids) then Some(NumberTaken)
                       else None
      ensures orders == if error.None? then Numbered(old(orders), ids, 0) else old(orders)
    {
      if exists i :: 0 <= i < |ids| && ids[i] !in orders {
        return Some(ImagesNotFound);
      }
      if |ids| != |orders| {
        return Some(NotAllImages);
      }
      var ok := Renumber(ids);
      return if ok then None else Some(NumberTaken);
    }

    /** The image of lowest number among some. */
    method First(among: set<ImageId>) returns (x: ImageId)
      requires Valid() && among != {} && among <= orders.Keys
      ensures x in among && forall y :: y in among && y != x ==> orders[x] < orders[y]
    {
      HasMember(among);
      x :| x in among;
      var rest := among - {x};
      while rest != {}
        invariant x in among && x !in rest && rest <= among
        invariant forall y :: y in among && y !in rest && y != x ==> orders[x] < orders[y]
        decreases rest
      {
        HasMember(rest);
        var y :| y in rest;
        if orders[y] < orders[x] {
          x := y;
        }
        rest := rest - {y};
      }
    }

    /** The query for all images by ascending displayOrder. */
    method InOrder() returns (ids: seq<ImageId>)
      requires Valid()
      ensures Listing(orders, ids)
    {
      ids := [];
      var rest := orders.Keys;
      while rest != {}
        invariant rest <= orders.Keys && OfProduct(orders, ids)
        invariant forall x :: x in orders ==> (x in ids <==> x !in rest)
        invariant forall i, y :: 0 <= i < |ids| && y in rest ==> orders[ids[i]] < orders[y]
        invariant forall i, j :: 0 <= i < j < |ids| ==> orders[ids[i]] < orders[ids[j]]
        decreases rest
      {
        var x := First(rest);
        ids := ids + [x];
        rest := rest - {x};
      }
    }

    /** Moves one image to the front and leaves the others in their order; `ids`
        is the listing before, of which there is only one. */
    method SetPreviewImage(preview: ImageId, ghost ids: seq<ImageId>) returns (error: Option<ReorderError>)
      requires Valid() && Listing(orders, ids)
      modifies this
      ensures Valid()
      ensures error == if preview !in old(orders) then Some(ImagesNotFound)
                       else if ids[0] != preview && !Fits(old(orders), MoveToFront(ids, preview)) then Some(NumberTaken)
                       else None
      ensures error.Some? || ids[0] == preview ==> orders == old(orders)
      ensures error.None? ==> Listing(orders, MoveToFront(ids, preview))
      ensures |MoveToFront(ids, preview)| == |ids| || error.Some?
      ensures error.None? && ids[0] != preview ==>
                forall i :: 0 <= i < |ids| ==> orders[MoveToFront(ids, preview)[i]] == i
    {
      hide Fits, Without, LastIndex, Unique;
      var images := InOrder();
      ListingUnique(orders, ids, images);
      if preview !in images {
        return Some(ImagesNotFound);
      }
      FrontedDistinct(orders, ids, preview);
      OthersKeepOrder(ids, preview, LastIndex(ids, preview));
      if images[0] == preview {
        return None;
      }
      var reordered := [preview] + Without(images, preview);
      var ok := Renumber(reordered);
      if !ok {
        return Some(NumberTaken);
      }
      NumberedInOrder(old(orders), reordered);
      return None;
    }
  }
}
