/** `productRouter`: category listing, rating, and the deal-of-day ordering. */
module ProductRoute {

  import opened Wrappers
  import opened Primitives
  import opened Http
  import opened Collections
  import opened Catalog
  import AuthMiddleware

  /** GET /api/products: `Product.find({ category })`, in collection order. */
  function ListByCategory(products: seq<Product>, category: string): (r: seq<Product>)
    ensures forall p :: multiset(r)[p] == if p.category == category then multiset(products)[p] else 0
  {
    if products == [] then []
    else
      var rest := ListByCategory(products[1..], category);
      assert products == [products[0]] + products[1..];
      assert multiset(products) == multiset{products[0]} + multiset(products[1..]);
      if products[0].category == category then [products[0]] + rest else rest
  }

  /** The field the rate loop reads off an entry to compare with `req.user`. */
  type KeyOf = Rating -> Option<UserId>

  /** The key as written, `ratings[i].userI`: a field no entry has, so always undefined. */
  function WrittenKey(rating: Rating): (key: Option<UserId>)
  {
    None
  }

  /** The key as intended, `ratings[i].userId`. */
  function IntendedKey(rating: Rating): (key: Option<UserId>)
  {
    Some(rating.userId)
  }

  /** Whether an entry's key equals the caller. */
  function Matching(key: KeyOf, caller: UserId): (matches: Rating -> bool)
  {
    (rating: Rating) => key(rating) == Some(caller)
  }

  /**
   * The ratings after the loop: the first entry whose key is the caller is
   * spliced out, and every other entry stays, in order.
   */
  function Spliced(rs: seq<Rating>, key: KeyOf, caller: UserId): (r: seq<Rating>)
    ensures (forall j :: 0 <= j < |rs| ==> key(rs[j]) != Some(caller)) ==> r == rs
    ensures (exists j :: 0 <= j < |rs| && key(rs[j]) == Some(caller)) ==>
      exists i :: 0 <= i < |rs| && key(rs[i]) == Some(caller)
        && (forall j :: 0 <= j < i ==> key(rs[j]) != Some(caller))
        && r == rs[..i] + rs[i + 1..]
    ensures |r| == |rs| || |r| == |rs| - 1
  {
    var i := FirstIndex(rs, Matching(key, caller));
    if i < |rs| then rs[..i] + rs[i + 1..] else rs
  }

  /** The ratings after POST /api/rate-product: spliced, then `{ userId: caller, rating }` pushed. */
  function Rated(rs: seq<Rating>, key: KeyOf, caller: UserId, value: int): (rated: seq<Rating>)
  {
    Spliced(rs, key, caller) + [Rating(caller, value)]
  }

  /** The loop at the heart of rate-product: scan, splice the first match, break, then push. */
  method Upsert(ratings: seq<Rating>, key: KeyOf, caller: UserId, value: int) returns (out: seq<Rating>)
    ensures out == Rated(ratings, key, caller, value)
    ensures |out| == |ratings| + 1 || |out| == |ratings|
    ensures out[|out| - 1] == Rating(caller, value)
  {
    out := ratings;
    var i := 0;
    while i < |out|
      invariant 0 <= i <= |out|
      invariant out == ratings
      invariant forall j :: 0 <= j < i ==> key(ratings[j]) != Some(caller)
    {
      if key(out[i]) == Some(caller) {
        assert FirstIndex(ratings, Matching(key, caller)) == i;
        out := out[..i] + out[i + 1..];
        break;
      }
      i := i + 1;
    }
    out := out + [Rating(caller, value)];
  }

  /** No user has two entries. */
  ghost predicate OnePerUser(rs: seq<Rating>)
  {
    forall i, j :: 0 <= i < j < |rs| ==> rs[i].userId != rs[j].userId
  }

  /** As written nothing is ever removed: every rating call adds an entry. */
  lemma WrittenKeyNeverRemoves(rs: seq<Rating>, caller: UserId, value: int)
    ensures Rated(rs, WrittenKey, caller, value) == rs + [Rating(caller, value)]
  {
    assert forall j :: 0 <= j < |rs| ==> WrittenKey(rs[j]) != Some(caller);
  }

  /** As written, a user who rates twice has two entries. */
  lemma WrittenKeyDuplicates(caller: UserId, first: int, second: int)
    ensures Rated(Rated([], WrittenKey, caller, first), WrittenKey, caller, second)
      == [Rating(caller, first), Rating(caller, second)]
  {
    WrittenKeyNeverRemoves([], caller, first);
    WrittenKeyNeverRemoves([Rating(caller, first)], caller, second);
  }

  /**
   * With the intended key, one entry per user is preserved, and the caller's
   * only entry afterwards is the new one, at the end.
   */
  lemma IntendedKeyKeepsOnePerUser(rs: seq<Rating>, caller: UserId, value: int)
    requires OnePerUser(rs)
    ensures OnePerUser(Rated(rs, IntendedKey, caller, value))
    ensures var out := Rated(rs, IntendedKey, caller, value);
      forall j :: 0 <= j < |out| - 1 ==> out[j].userId != caller
  {
    var s := Spliced(rs, IntendedKey, caller);
    var i := FirstIndex(rs, Matching(IntendedKey, caller));
    if i < |rs| {
      assert s == rs[..i] + rs[i + 1..];
      forall j | 0 <= j < |s|
        ensures s[j].userId != caller
      {
        if j < i {
          assert s[j] == rs[j];
          assert Matching(IntendedKey, caller)(rs[j]) == false;
        } else {
          assert s[j] == rs[j + 1];
        }
      }
      forall a, b | 0 <= a < b < |s|
        ensures s[a].userId != s[b].userId
      {
        var a', b' := if a < i then a else a + 1, if b < i then b else b + 1;
        assert s[a] == rs[a'] && s[b] == rs[b'];
      }
    } else {
      assert s == rs;
      forall j | 0 <= j < |s|
        ensures s[j].userId != caller
      {
        assert Matching(IntendedKey, caller)(rs[j]) == false;
      }
    }
  }

  /** Rating moves the deal score by the new value, less the rating of the entry it replaced. */
  lemma ScoreAfterRating(rs: seq<Rating>, key: KeyOf, caller: UserId, value: int)
    ensures var i := FirstIndex(rs, Matching(key, caller));
      RatingSum(Rated(rs, key, caller, value)) ==
        RatingSum(rs) + value - (if i < |rs| then rs[i].rating else 0)
  {
    var i := FirstIndex(rs, Matching(key, caller));
    RatingSumAppend(Spliced(rs, key, caller), [Rating(caller, value)]);
    assert RatingSum([Rating(caller, value)]) == value by {
      assert [Rating(caller, value)][..0] == [];
    }
    if i < |rs| {
      RatingSumRemove(rs, i);
    }
  }

  /**
   * POST /api/rate-product behind `auth_middleware`: the caller is the token's
   * id; an unknown product id dereferences null and throws; otherwise the
   * product's ratings become `Rated(...)` and the saved product is returned.
   */
  method RateProduct(store: ProductStore, header: Option<string>, verify: string -> Verdict,
                     id: nat, value: int, key: KeyOf)
    returns (r: Reply<Product>)
    modifies store
    ensures !AuthMiddleware.Authenticate(header, verify).Granted? ==> store.products == old(store.products)
    ensures AuthMiddleware.Authenticate(header, verify).Denied? ==>
      r == Err(AuthMiddleware.Authenticate(header, verify).status, AuthMiddleware.Authenticate(header, verify).msg)
    ensures AuthMiddleware.Authenticate(header, verify).Thrown? ==> r.Threw?
    ensures AuthMiddleware.Authenticate(header, verify).Granted? ==>
      var caller := AuthMiddleware.Authenticate(header, verify).binding;
      var i := IndexOf(old(store.products), id);
      if i == |old(store.products)| then
        r.Threw? && store.products == old(store.products)
      else
        var p := old(store.products)[i];
        var q := p.(ratings := Rated(p.ratings, key, caller, value));
        r == Ok(q) && store.products == old(store.products)[i := q]
  {
    var g := AuthMiddleware.Authenticate(header, verify);
    if g.Denied? {
      return Err(g.status, g.msg);
    } else if g.Thrown? {
      return Threw;
    }
    var i := IndexOf(store.products, id);
    if i == |store.products| {
      return Threw;
    }
    var product := store.products[i];
    var ratings := Upsert(product.ratings, key, g.binding, value);
    product := product.(ratings := ratings);
    store.SaveAt(i, product);
    r := Ok(product);
  }

  /** One of the comparator's loops: `sum += ratings[i].rating` over the list. */
  method SumRatings(rs: seq<Rating>) returns (sum: int)
    ensures sum == RatingSum(rs)
    ensures rs == [] ==> sum == 0
  {
    sum := 0;
    var i := 0;
    while i < |rs|
      invariant 0 <= i <= |rs|
      invariant sum == RatingSum(rs[..i])
    {
      assert rs[..i + 1][..i] == rs[..i];
      sum := sum + rs[i].rating;
      i := i + 1;
    }
    assert rs[..i] == rs;
  }

  /**
   * The deal-of-day comparator: 1 (b first) when a's score is lower, else -1
   * (a first). It never answers 0, so on a tie it puts each before the other.
   */
  method Compare(a: Product, b: Product) returns (c: int)
    ensures c == 1 <==> Score(a) < Score(b)
    ensures c == -1 <==> Score(a) >= Score(b)
  {
    var aSum := SumRatings(a.ratings);
    var bSum := SumRatings(b.ratings);
    c := if aSum < bSum then 1 else -1;
  }

  /** Scores do not increase from index `lo` up to `hi`. */
  ghost predicate Descending(s: seq<Product>, lo: int, hi: int)
    requires 0 <= lo <= hi <= |s|
  {
    forall k, m :: lo <= k < m < hi ==> Score(s[k]) >= Score(s[m])
  }

  /**
   * The state of one insertion pass: entry `j` of `s` is on its way down from
   * `i`; everything before it is in order, everything from it up to `i` is in
   * order, and nothing before it scores less than anything after it.
   */
  ghost predicate Inserting(s: seq<Product>, i: nat, j: nat)
    requires j <= i < |s|
  {
    && Descending(s, 0, j)
    && Descending(s, j, i + 1)
    && forall k, m :: 0 <= k < j < m <= i ==> Score(s[k]) >= Score(s[m])
  }

  /** Swapping entry `j` below a lower-scored neighbour keeps the pass's state, one place further down. */
  lemma SwapKeepsInserting(s: seq<Product>, i: nat, j: nat)
    requires 0 < j <= i < |s|
    requires Inserting(s, i, j)
    requires Score(s[j - 1]) < Score(s[j])
    ensures Inserting(s[j - 1 := s[j]][j := s[j - 1]], i, j - 1)
  {
  }

  /** A pass that stops where its neighbour scores at least as much leaves the prefix in order. */
  lemma SettledIsDescending(s: seq<Product>, i: nat, j: nat)
    requires j <= i < |s|
    requires Inserting(s, i, j)
    requires j > 0 ==> Score(s[j - 1]) >= Score(s[j])
    ensures Descending(s, 0, i + 1)
  {
  }

  /** Exchanges two neighbouring entries; the contents stay the same multiset. */
  method SwapDown(a: array<Product>, j: nat)
    requires 0 < j < a.Length
    modifies a
    ensures a[..] == old(a[..])[j - 1 := old(a[j])][j := old(a[j - 1])]
    ensures multiset(a[..]) == multiset(old(a[..]))
  {
    a[j - 1], a[j] := a[j], a[j - 1];
  }

  /**
   * One pass of the sort: moves `a[i]` down past every lower-scored entry, so
   * that the prefix up to and including `i` is in order.
   */
  method InsertDown(a: array<Product>, i: nat)
    requires i < a.Length
    requires Descending(a[..], 0, i)
    modifies a
    ensures Descending(a[..], 0, i + 1)
    ensures multiset(a[..]) == multiset(old(a[..]))
  {
    var j := i;
    var settled := false;
    while j > 0 && !settled
      invariant 0 <= j <= i
      invariant Inserting(a[..], i, j)
      invariant settled ==> j > 0 && Score(a[j - 1]) >= Score(a[j])
      invariant multiset(a[..]) == multiset(old(a[..]))
      decreases j, if settled then 0 else 1
    {
      var c := Compare(a[j - 1], a[j]);
      if c == 1 {
        SwapKeepsInserting(a[..], i, j);
        SwapDown(a, j);
        j := j - 1;
      } else {
        settled := true;
      }
    }
    SettledIsDescending(a[..], i, j);
  }

  /**
   * GET /api/deal-of-day: `products.sort(comparator)`, an in-place sort of the
   * fetched array (insertion sort here; the engine's algorithm is not fixed).
   * The result is a rearrangement of the products by non-increasing score.
   */
  method DealOfDay(products: seq<Product>) returns (sorted: seq<Product>)
    ensures multiset(sorted) == multiset(products)
    ensures |sorted| == |products|
    ensures forall k, m :: 0 <= k < m < |sorted| ==> Score(sorted[k]) >= Score(sorted[m])
  {
    var a := new Product[|products|](k requires 0 <= k < |products| => products[k]);
    assert a[..] == products;
    var i := 0;
    while i < a.Length
      invariant 0 <= i <= a.Length
      invariant Descending(a[..], 0, i)
      invariant multiset(a[..]) == multiset(products)
    {
      InsertDown(a, i);
      i := i + 1;
    }
    sorted := a[..];
    assert forall k :: 0 <= k < |sorted| ==> sorted[k] == a[k];
  }
}
