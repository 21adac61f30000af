/** The `Product` collection and the rating arithmetic the routes share. */
module Catalog {

  import opened Wrappers
  import opened Primitives
  import opened Collections

  /** One entry of `product.ratings`: `{ userId, rating }`. */
  datatype Rating = Rating(userId: UserId, rating: int)

  /** A product document. */
  datatype Product = Product(
    id: nat, name: string, description: string, images: seq<string>,
    quantity: int, price: int, category: string, ratings: seq<Rating>)

  /** The sum of the `rating` values, accumulated from the front as the deal-of-day comparator does. */
  function RatingSum(rs: seq<Rating>): (sum: int)
  {
    if rs == [] then 0 else RatingSum(rs[..|rs| - 1]) + rs[|rs| - 1].rating
  }

  /** A product's deal score: the sum of its ratings. */
  function Score(p: Product): (score: int)
  {
    RatingSum(p.ratings)
  }

  /** Sums split over concatenation. */
  lemma {:induction false} RatingSumAppend(a: seq<Rating>, b: seq<Rating>)
    ensures RatingSum(a + b) == RatingSum(a) + RatingSum(b)
    decreases |b|
  {
    if b != [] {
      assert (a + b)[..|a + b| - 1] == a + b[..|b| - 1];
      RatingSumAppend(a, b[..|b| - 1]);
    } else {
      assert a + b == a;
    }
  }

  /** Removing entry `i` takes exactly its rating off the sum. */
  lemma RatingSumRemove(rs: seq<Rating>, i: nat)
    requires i < |rs|
    ensures RatingSum(rs[..i] + rs[i + 1..]) == RatingSum(rs) - rs[i].rating
  {
    assert rs == rs[..i] + [rs[i]] + rs[i + 1..];
    RatingSumAppend(rs[..i] + [rs[i]], rs[i + 1..]);
    RatingSumAppend(rs[..i], [rs[i]]);
    RatingSumAppend(rs[..i], rs[i + 1..]);
    assert RatingSum([rs[i]]) == RatingSum([]) + rs[i].rating by {
      assert [rs[i]][..0] == [];
    }
  }

  /** The position of the first product with `_id` equal to `id`, or `|products|`. */
  function IndexOf(products: seq<Product>, id: nat): (i: nat)
    ensures i <= |products|
    ensures i < |products| ==> products[i].id == id
    ensures forall j :: 0 <= j < i ==> products[j].id != id
    ensures i == |products| <==> forall j :: 0 <= j < |products| ==> products[j].id != id
  {
    FirstIndex(products, (p: Product) => p.id == id)
  }

  /** The collection of product documents, in natural order. */
  class ProductStore {
    var products: seq<Product>

    constructor (products: seq<Product>)
      ensures this.products == products
    {
      this.products := products;
    }

    /** `product.save()` of a document loaded from position `i`: that document is replaced, nothing else. */
    method SaveAt(i: nat, p: Product)
      requires i < |products|
      modifies this
      ensures products == old(products)[i := p]
    {
      products := products[i := p];
    }

    /**
     * `Product.findByIdAndDelete(id)`: removes the first document with that id
     * and returns it, or returns null and removes nothing.
     */
    method DeleteById(id: nat) returns (deleted: Option<Product>)
      modifies this
      ensures var i := IndexOf(old(products), id);
        if i < |old(products)| then
          deleted == Some(old(products)[i]) && products == old(products)[..i] + old(products)[i + 1..]
        else
          deleted == None && products == old(products)
    {
      var i := IndexOf(products, id);
      if i < |products| {
        deleted := Some(products[i]);
        products := products[..i] + products[i + 1..];
      } else {
        deleted := None;
      }
    }
  }
}
