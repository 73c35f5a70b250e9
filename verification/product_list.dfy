/**
 * The product list component (`frontend/src/components/Products/ProductList.jsx`):
 * the query parameters it sends, the client-side search filter, and the
 * title and count shown above the list. Fetching, loading and error
 * rendering are not modelled.
 */
module ProductList {
  import opened JsValues
  import opened JsStrings
  import opened JsNumbers

  /** The fields the search looks at; an absent (`null`/`undefined`) field is `None`. */
  datatype ListedProduct = ListedProduct(
    id: Option<int>,
    name: Option<string>,
    batchId: Option<string>,
    origin: Option<string>)

  /** An address prop is used only when truthy: present and non-empty. */
  predicate IsSet(prop: Option<string>)
  {
    prop.Some? && prop.value != ""
  }

  /** The `params` object passed to `productAPI.list`. */
  datatype ListParams = ByProducer(producer: string) | ByOwner(owner: string) | Unfiltered

  /** Producer first, then owner, otherwise no filter (the fetch and the refresh build the same object). */
  function QueryParams(ownerAddress: Option<string>, producerAddress: Option<string>): (p: ListParams)
    ensures p.ByProducer? <==> IsSet(producerAddress)
    ensures p.ByOwner? <==> !IsSet(producerAddress) && IsSet(ownerAddress)
    ensures p.ByProducer? ==> p.producer == producerAddress.value
    ensures p.ByOwner? ==> p.owner == ownerAddress.value
  {
    if IsSet(producerAddress) then ByProducer(producerAddress.value)
    else if IsSet(ownerAddress) then ByOwner(ownerAddress.value)
    else Unfiltered
  }

  /** `field?.toLowerCase().includes(term)` */
  predicate FieldMatches(field: Option<string>, term: string)
  {
    field.Some? && Includes(Lower(field.value), term)
  }

  /** `product.id?.toString().includes(term)` */
  predicate IdMatches(id: Option<int>, term: string)
  {
    id.Some? && Includes(IntToDecimal(id.value), term)
  }

  /** The filter callback for an already lower-cased term. */
  predicate Matches(p: ListedProduct, term: string)
  {
    FieldMatches(p.name, term) || FieldMatches(p.batchId, term)
    || FieldMatches(p.origin, term) || IdMatches(p.id, term)
  }

  /** `products.filter(…)`, keeping the original order. */
  function KeepMatching(products: seq<ListedProduct>, term: string): seq<ListedProduct>
  {
    if |products| == 0 then []
    else (if Matches(products[0], term) then [products[0]] else [])
         + KeepMatching(products[1..], term)
  }

  /** The search effect: a blank term shows everything, otherwise the list filtered by the lower-cased, untrimmed term. */
  function FilterProducts(products: seq<ListedProduct>, searchTerm: string): seq<ListedProduct>
  {
    if Trim(searchTerm) == "" then products else KeepMatching(products, Lower(searchTerm))
  }

  /** `a` is `b` with some elements removed, order kept. */
  predicate IsSubsequence<T(==)>(a: seq<T>, b: seq<T>)
    decreases |b|
  {
    if |a| == 0 then true
    else if |b| == 0 then false
    else if a[0] == b[0] then IsSubsequence(a[1..], b[1..])
    else IsSubsequence(a, b[1..])
  }

  /** `{ownerAddress || producerAddress ? 'My Products' : 'All Products'}` */
  function Title(ownerAddress: Option<string>, producerAddress: Option<string>): string
  {
    if IsSet(ownerAddress) || IsSet(producerAddress) then "My Products" else "All Products"
  }

  /** `{n} {n === 1 ? 'product' : 'products'}` */
  function CountLabel(n: nat): string
  {
    NatToDecimal(n) + " " + (if n == 1 then "product" else "products")
  }

  // ----- lemmas -----

  /** Dropping the head of the larger list keeps a subsequence. */
  lemma {:induction false} SubsequenceOfTail<T>(a: seq<T>, b: seq<T>)
    requires |b| > 0 && IsSubsequence(a, b[1..])
    ensures IsSubsequence(a, b)
    decreases |b|, 1
  {
    if |a| > 0 && a[0] == b[0] {
      SubsequenceDropHead(a, b[1..]);
    }
  }

  /** Dropping the head of the smaller list keeps a subsequence. */
  lemma {:induction false} SubsequenceDropHead<T>(a: seq<T>, c: seq<T>)
    requires |a| > 0 && IsSubsequence(a, c)
    ensures IsSubsequence(a[1..], c)
    decreases |c|, 2
  {
    if a[0] == c[0] {
      if |a| > 1 {
        SubsequenceOfTail(a[1..], c);
      }
    } else {
      SubsequenceDropHead(a, c[1..]);
      if |a| > 1 {
        SubsequenceOfTail(a[1..], c);
      }
    }
  }

  /** The filter keeps exactly the matching products, in their original order. */
  lemma {:induction false} KeepMatchingIsExact(products: seq<ListedProduct>, term: string)
    ensures forall p :: p in KeepMatching(products, term) ==> p in products && Matches(p, term)
    ensures forall i :: 0 <= i < |products| && Matches(products[i], term) ==> products[i] in KeepMatching(products, term)
    ensures IsSubsequence(KeepMatching(products, term), products)
    decreases |products|
  {
    if |products| > 0 {
      var rest := KeepMatching(products[1..], term);
      KeepMatchingIsExact(products[1..], term);
      forall i | 1 <= i < |products| && Matches(products[i], term)
        ensures products[i] in KeepMatching(products, term)
      {
        assert products[1..][i - 1] == products[i];
      }
      if Matches(products[0], term) {
        assert KeepMatching(products, term) == [products[0]] + rest;
        assert ([products[0]] + rest)[1..] == rest;
      } else {
        assert KeepMatching(products, term) == rest;
        if |rest| > 0 {
          SubsequenceOfTail(rest, products);
        }
      }
    }
  }

  /** Every matching product is kept as many times as it occurs in the input, and no other product is kept. */
  lemma {:induction false} KeepMatchingCounts(products: seq<ListedProduct>, term: string)
    ensures forall p :: multiset(KeepMatching(products, term))[p]
                        == if Matches(p, term) then multiset(products)[p] else 0
    decreases |products|
  {
    if |products| > 0 {
      var head := if Matches(products[0], term) then [products[0]] else [];
      var rest := KeepMatching(products[1..], term);
      KeepMatchingCounts(products[1..], term);
      assert products == [products[0]] + products[1..];
      assert multiset(products) == multiset{products[0]} + multiset(products[1..]);
      assert multiset(KeepMatching(products, term)) == multiset(head) + multiset(rest);
    }
  }

  /** A blank search shows the whole list; otherwise the result is the matching products, in order. */
  lemma {:induction false} FilterProductsSpec(products: seq<ListedProduct>, searchTerm: string)
    ensures AllSpace(searchTerm) ==> FilterProducts(products, searchTerm) == products
    ensures IsSubsequence(FilterProducts(products, searchTerm), products)
    ensures !AllSpace(searchTerm) ==>
              forall i :: 0 <= i < |products| ==>
                (products[i] in FilterProducts(products, searchTerm) <==> Matches(products[i], Lower(searchTerm)))
    ensures !AllSpace(searchTerm) ==>
              forall p :: multiset(FilterProducts(products, searchTerm))[p]
                          == if Matches(p, Lower(searchTerm)) then multiset(products)[p] else 0
  {
    TrimEmptyIffAllSpace(searchTerm);
    KeepMatchingIsExact(products, Lower(searchTerm));
    KeepMatchingCounts(products, Lower(searchTerm));
    if AllSpace(searchTerm) {
      SubsequenceReflexive(products);
    }
  }

  lemma {:induction false} SubsequenceReflexive<T>(a: seq<T>)
    ensures IsSubsequence(a, a)
    decreases |a|
  {
    if |a| > 0 {
      SubsequenceReflexive(a[1..]);
    }
  }

  /** A product with no name, batch, origin or id never matches a non-blank search. */
  lemma AbsentFieldsNeverMatch(searchTerm: string)
    requires !AllSpace(searchTerm)
    ensures FilterProducts([ListedProduct(None, None, None, None)], searchTerm) == []
  {
    var blank := ListedProduct(None, None, None, None);
    var term := Lower(searchTerm);
    TrimEmptyIffAllSpace(searchTerm);
    assert !Matches(blank, term);
    assert KeepMatching([blank], term) == [] + KeepMatching([blank][1..], term);
    assert [blank][1..] == [];
  }

  /** Surrounding spaces are part of the search term: " apple" does not find a product named "Apple". */
  lemma SurroundingSpacesTakePart()
    ensures FilterProducts([ListedProduct(None, Some("Apple"), None, None)], " apple") == []
  {
    var apple := ListedProduct(None, Some("Apple"), None, None);
    var term := Lower(" apple");
    assert |term| == 6 && |Lower("Apple")| == 5;
    assert !Matches(apple, term);
    assert Trim(" apple") != "" by {
      TrimEmptyIffAllSpace(" apple");
      assert " apple"[1] == 'a';
    }
    assert KeepMatching([apple], term) == [] + KeepMatching([apple][1..], term);
    assert [apple][1..] == [];
  }

  /** Letters match regardless of case: "APP" finds a product named "Apple". */
  lemma SearchIgnoresLetterCase()
    ensures FilterProducts([ListedProduct(None, Some("Apple"), None, None)], "APP")
            == [ListedProduct(None, Some("Apple"), None, None)]
  {
    var apple := ListedProduct(None, Some("Apple"), None, None);
    var term := Lower("APP");
    var name := Lower("Apple");
    assert term == "app" by {
      assert |term| == 3 && term[0] == 'a' && term[1] == 'p' && term[2] == 'p';
    }
    assert name[..3] == "app" by {
      assert name[0] == 'a' && name[1] == 'p' && name[2] == 'p';
    }
    assert Matches(apple, term);
    assert Trim("APP") != "" by {
      TrimEmptyIffAllSpace("APP");
      assert "APP"[0] == 'A';
    }
    assert KeepMatching([apple], term) == [apple] + KeepMatching([apple][1..], term);
    assert [apple][1..] == [];
  }

  /** The title says "My Products" exactly when the list is fetched with an owner or producer filter. */
  lemma TitleMatchesParams(ownerAddress: Option<string>, producerAddress: Option<string>)
    ensures Title(ownerAddress, producerAddress) == "My Products"
            <==> !QueryParams(ownerAddress, producerAddress).Unfiltered?
    ensures Title(ownerAddress, producerAddress) == "All Products"
            <==> QueryParams(ownerAddress, producerAddress).Unfiltered?
  {
  }

  /** The label reads back as the count. */
  lemma {:induction false} CountLabelReadsBack(n: nat)
    ensures ParseInt(CountLabel(n)) == Finite(n as real)
  {
    var noun := if n == 1 then "product" else "products";
    var rest := " " + noun;
    assert CountLabel(n) == IntToDecimal(n) + rest;
    assert rest[0] == ' ';
    assert DigitValue(' ', 10).None?;
    assert EndsNumber(rest);
    ParseIntOfDecimalThen(n, rest);
  }

  /** The singular noun is used only for one product. */
  lemma CountLabelNoun(n: nat)
    ensures CountLabel(n) == NatToDecimal(n) + " product" <==> n == 1
  {
    if n != 1 {
      assert |CountLabel(n)| == |NatToDecimal(n)| + 9;
    }
  }
}
