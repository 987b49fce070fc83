/**
 * The favourites hook (src/hooks/useWishlist.ts): a list of wishlist rows
 * updated optimistically before the backend answers, and reverted by a
 * filter or a refetch when it refuses.
 */
module Wishlist {
  import opened Domain

  /** A `wishlists` row; `createdAt` is the clock reading as an integer. */
  datatype WishlistItem = WishlistItem(id: string, userId: string, productId: string, createdAt: int)

  /** `items.some(i => i.product_id === productId)`. */
  function IsWishlisted(items: seq<WishlistItem>, productId: string): (r: bool)
    ensures r <==> exists i :: 0 <= i < |items| && items[i].productId == productId
  {
    if items == [] then false
    else items[0].productId == productId || IsWishlisted(items[1..], productId)
  }

  /** `items.filter(i => i.product_id !== productId)`. */
  function Without(items: seq<WishlistItem>, productId: string): (r: seq<WishlistItem>)
    ensures |r| <= |items|
    ensures forall i :: 0 <= i < |r| ==> r[i].productId != productId
    ensures forall i :: 0 <= i < |r| ==> r[i] in items
    ensures forall i :: 0 <= i < |items| && items[i].productId != productId ==> items[i] in r
  {
    if items == [] then []
    else if items[0].productId == productId then Without(items[1..], productId)
    else [items[0]] + Without(items[1..], productId)
  }

  /** The optimistic row added before the insert is confirmed. */
  function TempItem(userId: string, productId: string, now: int): (t: WishlistItem)
    ensures t.productId == productId && t.userId == userId && t.id == "temp-" + productId
  {
    WishlistItem("temp-" + productId, userId, productId, now)
  }

  /** Temporary rows of two products never share an id. */
  lemma TempIdsDistinct(userId: string, p: string, q: string, now: int, later: int)
    requires p != q
    ensures TempItem(userId, p, now).id != TempItem(userId, q, later).id
  {
    assert TempItem(userId, p, now).id[5..] == p;
    assert TempItem(userId, q, later).id[5..] == q;
  }

  /** At most one row per product. */
  predicate UniqueProducts(items: seq<WishlistItem>)
  {
    forall i, j :: 0 <= i < j < |items| ==> items[i].productId != items[j].productId
  }

  /** `toggleWishlist`'s optimistic step: remove when present, prepend otherwise. */
  function Toggled(items: seq<WishlistItem>, userId: string, productId: string, now: int): (r: seq<WishlistItem>)
    ensures IsWishlisted(r, productId) <==> !IsWishlisted(items, productId)
    ensures |r| <= |items| + 1
  {
    if IsWishlisted(items, productId) then Without(items, productId)
    else [TempItem(userId, productId, now)] + items
  }

  /**
   * `useWishlist`, for the session it was created with. The source tests
   * `!userId`, which also takes an empty id for no user; here the session
   * is `None` for no user and `Some(id)` for a signed-in one, whose id is
   * never empty.
   */
  class WishlistHook {
    const userId: Option<string>
    var items: seq<WishlistItem>
    var loading: bool

    constructor (userId: Option<string>)
      ensures this.userId == userId && items == [] && loading
    {
      this.userId := userId;
      items, loading := [], true;
    }

    /** `fetchWishlist`; `data` is the query's rows, None when it returned none. */
    method Fetch(data: Option<seq<WishlistItem>>)
      modifies this
      ensures !loading
      ensures userId.None? ==> items == []
      ensures userId.Some? ==> items == (if data.Some? then data.value else [])
    {
      if userId.None? {
        items, loading := [], false;
        return;
      }
      items := if data.Some? then data.value else [];
      loading := false;
    }

    /**
     * `addToWishlist`: prepend the temporary row, then either filter the
     * product out again (insert refused) or refetch.
     */
    method Add(productId: string, now: int, inserted: bool, refetched: Option<seq<WishlistItem>>)
      modifies this
      ensures userId.None? ==> items == old(items) && loading == old(loading)
      ensures userId.Some? && !inserted ==>
        items == Without([TempItem(userId.value, productId, now)] + old(items), productId)
        && loading == old(loading)
      ensures userId.Some? && inserted ==>
        items == (if refetched.Some? then refetched.value else []) && !loading
    {
      if userId.None? {
        return;
      }
      items := [TempItem(userId.value, productId, now)] + items;
      if !inserted {
        items := Without(items, productId);
      } else {
        Fetch(refetched);
      }
    }

    /** `removeFromWishlist`: filter the product out, refetch only when the delete is refused. */
    method Remove(productId: string, deleted: bool, refetched: Option<seq<WishlistItem>>)
      modifies this
      ensures userId.None? ==> items == old(items) && loading == old(loading)
      ensures userId.Some? && deleted ==> items == Without(old(items), productId) && loading == old(loading)
      ensures userId.Some? && !deleted ==>
        items == (if refetched.Some? then refetched.value else []) && !loading
    {
      if userId.None? {
        return;
      }
      items := Without(items, productId);
      if !deleted {
        Fetch(refetched);
      }
    }

    /** `toggleWishlist`, when the backend accepts and the refetch is not yet in. */
    method ToggleOptimistic(productId: string, now: int)
      modifies this
      ensures userId.None? ==> items == old(items)
      ensures userId.Some? ==> items == Toggled(old(items), userId.value, productId, now)
      ensures loading == old(loading)
    {
      if userId.None? {
        return;
      }
      if IsWishlisted(items, productId) {
        items := Without(items, productId);
      } else {
        items := [TempItem(userId.value, productId, now)] + items;
      }
    }
  }

  // ---------------------------------------------------------------------

  /** The optimistic add leaves the old rows behind the new one, and the product is wishlisted. */
  lemma AddPrepends(items: seq<WishlistItem>, userId: string, productId: string, now: int)
    ensures var r := [TempItem(userId, productId, now)] + items;
      r[1..] == items && IsWishlisted(r, productId)
  {
    var r := [TempItem(userId, productId, now)] + items;
    assert r[0].productId == productId;
  }

  /** Filtering out a product that has no row changes nothing. */
  lemma {:induction false} WithoutAbsent(items: seq<WishlistItem>, productId: string)
    requires !IsWishlisted(items, productId)
    ensures Without(items, productId) == items
  {
    if items != [] {
      WithoutAbsent(items[1..], productId);
    }
  }

  /** Filtering distributes over concatenation: the surviving rows keep their order. */
  lemma {:induction false} WithoutAppend(a: seq<WishlistItem>, b: seq<WishlistItem>, productId: string)
    ensures Without(a + b, productId) == Without(a, productId) + Without(b, productId)
  {
    if a != [] {
      assert (a + b)[1..] == a[1..] + b;
      WithoutAppend(a[1..], b, productId);
    } else {
      assert a + b == b;
    }
  }

  /**
   * The revert after a refused insert removes every row of the product, the
   * earlier ones too; so the list is restored exactly when the product had no
   * row before.
   */
  lemma RevertAfterAdd(items: seq<WishlistItem>, userId: string, productId: string, now: int)
    ensures Without([TempItem(userId, productId, now)] + items, productId) == Without(items, productId)
    ensures !IsWishlisted(items, productId) ==>
      Without([TempItem(userId, productId, now)] + items, productId) == items
    ensures IsWishlisted(items, productId) ==>
      Without([TempItem(userId, productId, now)] + items, productId) != items
  {
    var t := TempItem(userId, productId, now);
    assert ([t] + items)[1..] == items;
    if !IsWishlisted(items, productId) {
      WithoutAbsent(items, productId);
    } else {
      var i :| 0 <= i < |items| && items[i].productId == productId;
      var r := Without(items, productId);
      assert items[i] !in r;
    }
  }

  /** Filtering keeps one row per product. */
  lemma {:induction false} WithoutKeepsUnique(items: seq<WishlistItem>, productId: string)
    requires UniqueProducts(items)
    ensures UniqueProducts(Without(items, productId))
  {
    if items != [] {
      WithoutKeepsUnique(items[1..], productId);
      var rest := Without(items[1..], productId);
      if items[0].productId != productId {
        forall j | 0 <= j < |rest|
          ensures items[0].productId != rest[j].productId
        {
          assert rest[j] in items[1..];
        }
        assert Without(items, productId) == [items[0]] + rest;
      }
    }
  }

  /**
   * The optimistic toggle flips whether the product is wishlisted, leaves the
   * other products' rows as they were, and never creates a duplicate.
   */
  lemma ToggleFlips(items: seq<WishlistItem>, userId: string, productId: string, now: int)
    requires UniqueProducts(items)
    ensures IsWishlisted(Toggled(items, userId, productId, now), productId) <==> !IsWishlisted(items, productId)
    ensures UniqueProducts(Toggled(items, userId, productId, now))
    ensures forall q :: q != productId ==>
      (IsWishlisted(Toggled(items, userId, productId, now), q) <==> IsWishlisted(items, q))
  {
    var r := Toggled(items, userId, productId, now);
    if IsWishlisted(items, productId) {
      WithoutKeepsUnique(items, productId);
      forall q | q != productId
        ensures IsWishlisted(r, q) <==> IsWishlisted(items, q)
      {
        if IsWishlisted(items, q) {
          var i :| 0 <= i < |items| && items[i].productId == q;
          var j :| 0 <= j < |r| && r[j] == items[i];
        }
        if IsWishlisted(r, q) {
          var j :| 0 <= j < |r| && r[j].productId == q;
          var i :| 0 <= i < |items| && items[i] == r[j];
        }
      }
    } else {
      AddPrepends(items, userId, productId, now);
      forall q | q != productId
        ensures IsWishlisted(r, q) <==> IsWishlisted(items, q)
      {
        if IsWishlisted(items, q) {
          var i :| 0 <= i < |items| && items[i].productId == q;
          assert r[i + 1] == items[i];
        }
        if IsWishlisted(r, q) {
          var j :| 0 <= j < |r| && r[j].productId == q;
          assert j != 0;
          assert items[j - 1] == r[j];
        }
      }
    }
  }
}
