/**
 * The shopping-list download: for every recipe id in the cart, walk the
 * recipe's ingredient links and add each link's quantity to a per-ingredient
 * total kept in an insertion-ordered dict of `[total, unit]` pairs; then print a
 * fixed header followed by one line per ingredient, in insertion order.
 *
 * The two database reads are parameters: `links(r)` is the list of
 * `RecipeIngredients` rows of recipe `r`, and `ingredientOf(id)` is
 * `Ingredients.objects.get(id=id)`, `None` where that raises `DoesNotExist`.
 *
 * The specification is written as folds that consume their input from the
 * right, so that "the loop has processed the first i items" reads
 * `F(items[..i]) == state`.
 */
module ShoppingCart {
  import opened Wrappers
  import opened Text

  type RecipeId = int
  type IngredientId = int

  /** A catalogue row. The name column is nullable. */
  datatype Ingredient = Ingredient(name: Option<string>, measurementUnit: string)

  /** A recipe-ingredient row; its quantity is taken to be non-null. */
  datatype Link = Link(ingredientId: IngredientId, quantity: nat)

  /** The value `[total_quantity, measurement_unit]` kept per ingredient id. */
  datatype Entry = Entry(total: nat, unit: string)

  /** The accumulator dict, with its insertion order written out. */
  datatype Tally = Tally(entries: map<IngredientId, Entry>, order: seq<IngredientId>) {
    /** `order` lists the keys of `entries`, each once. */
    ghost predicate Valid() {
      && (forall k :: k in entries <==> k in order)
      && (forall i, j :: 0 <= i < j < |order| ==> order[i] != order[j])
    }
  }

  datatype Error =
    /** `Ingredients.objects.get(id=id)` raised `DoesNotExist`. */
    | IngredientDoesNotExist(id: int)
    /** `str()` of an ingredient whose name is null raises `TypeError`. */
    | IngredientNameIsNull(id: IngredientId)

  const Header := "Ingredients for shopping :)\n"

  // ---------------------------------------------------------------------------
  // Accumulation

  /** One link: bump the total of a known id, or insert `[quantity, unit]`. */
  function AddLink(t: Tally, link: Link, unit: string): (r: Tally)
    requires t.Valid()
    ensures r.Valid()
  {
    var id := link.ingredientId;
    if id in t.entries then
      Tally(t.entries[id := Entry(t.entries[id].total + link.quantity, t.entries[id].unit)], t.order)
    else
      Tally(t.entries[id := Entry(link.quantity, unit)], t.order + [id])
  }

  /** All links of one recipe, in order, each stamped with `unit` on insertion. */
  function AddLinks(t: Tally, links: seq<Link>, unit: string): (r: Tally)
    requires t.Valid()
    ensures r.Valid()
  {
    if |links| == 0 then t
    else AddLink(AddLinks(t, links[..|links| - 1], unit), links[|links| - 1], unit)
  }

  /**
   * The accumulator after every recipe of `ids`; the unit handed to a recipe's
   * links is the unit of the ingredient whose id is the RECIPE id.
   */
  function Aggregate(ids: seq<RecipeId>, links: RecipeId -> seq<Link>,
                     ingredientOf: int -> Option<Ingredient>): (r: Result<Tally, Error>)
    ensures r.Success? ==> r.value.Valid()
  {
    if |ids| == 0 then Success(Tally(map[], []))
    else
      match Aggregate(ids[..|ids| - 1], links, ingredientOf)
      case Failure(e) => Failure(e)
      case Success(t) =>
        var id := ids[|ids| - 1];
        match ingredientOf(id)
        case None => Failure(IngredientDoesNotExist(id))
        case Some(ingredient) => Success(AddLinks(t, links(id), ingredient.measurementUnit))
  }

  // ---------------------------------------------------------------------------
  // Rendering

  /** One report line: name, unit and total, each followed by the separator. */
  function Line(name: string, unit: string, total: nat): string
  {
    name + " " + unit + " " + DecimalString(total) + "\n  "
  }

  /** The ingredient can be printed: it exists and its name is not null. */
  predicate Printable(ingredient: Option<Ingredient>) {
    ingredient.Some? && ingredient.value.name.Some?
  }

  /** The lines for `keys`, in order; fails at the first unprintable key. */
  function RenderLines(keys: seq<IngredientId>, entries: map<IngredientId, Entry>,
                       ingredientOf: int -> Option<Ingredient>): (r: Result<string, Error>)
    requires forall k :: k in keys ==> k in entries
    ensures r.Failure? ==> exists i :: 0 <= i < |keys| && !Printable(ingredientOf(keys[i]))
  {
    if |keys| == 0 then Success("")
    else
      match RenderLines(keys[..|keys| - 1], entries, ingredientOf)
      case Failure(e) => Failure(e)
      case Success(body) =>
        var key := keys[|keys| - 1];
        match ingredientOf(key)
        case None => Failure(IngredientDoesNotExist(key))
        case Some(ingredient) =>
          match ingredient.name
          case None => Failure(IngredientNameIsNull(key))
          case Some(name) => Success(body + Line(name, entries[key].unit, entries[key].total))
  }

  /** The body of the response: the header, then the aggregated lines. */
  function Report(ids: seq<RecipeId>, links: RecipeId -> seq<Link>,
                  ingredientOf: int -> Option<Ingredient>): Result<string, Error>
  {
    match Aggregate(ids, links, ingredientOf)
    case Failure(e) => Failure(e)
    case Success(t) =>
      match RenderLines(t.order, t.entries, ingredientOf)
      case Failure(e) => Failure(e)
      case Success(body) => Success(Header + body)
  }

  // ---------------------------------------------------------------------------
  // The routine itself

  /**
   * The inner loop of `download_shopping_cart`: the links of one recipe, added
   * to the dict and its key order in place.
   */
  method AddRecipeLinks(entries0: map<IngredientId, Entry>, order0: seq<IngredientId>,
                        recipeLinks: seq<Link>, unit: string)
    returns (entries: map<IngredientId, Entry>, order: seq<IngredientId>)
    requires Tally(entries0, order0).Valid()
    ensures Tally(entries, order) == AddLinks(Tally(entries0, order0), recipeLinks, unit)
  {
    entries, order := entries0, order0;
    for j := 0 to |recipeLinks|
      invariant AddLinks(Tally(entries0, order0), recipeLinks[..j], unit) == Tally(entries, order)
    {
      var id := recipeLinks[j].ingredientId;
      var quantity := recipeLinks[j].quantity;
      assert recipeLinks[..j + 1][..j] == recipeLinks[..j];
      if id in entries {
        entries := entries[id := Entry(entries[id].total + quantity, entries[id].unit)];
      } else {
        entries := entries[id := Entry(quantity, unit)];
        order := order + [id];
      }
    }
    assert recipeLinks[..|recipeLinks|] == recipeLinks;
  }

  /** The outer loop: a fresh dict, then every recipe of the cart in turn. */
  method Accumulate(shoppingIds: seq<RecipeId>, links: RecipeId -> seq<Link>,
                    ingredientOf: int -> Option<Ingredient>)
    returns (r: Result<Tally, Error>)
    ensures r == Aggregate(shoppingIds, links, ingredientOf)
  {
    var entries: map<IngredientId, Entry> := map[];
    var order: seq<IngredientId> := [];
    for i := 0 to |shoppingIds|
      invariant Aggregate(shoppingIds[..i], links, ingredientOf) == Success(Tally(entries, order))
    {
      var shoppingId := shoppingIds[i];
      var recipeLinks := links(shoppingId);
      var ingredient := ingredientOf(shoppingId);
      assert shoppingIds[..i + 1][..i] == shoppingIds[..i];
      if ingredient.None? {
        AggregateFailureIsFinal(shoppingIds, i + 1, links, ingredientOf);
        return Failure(IngredientDoesNotExist(shoppingId));
      }
      entries, order := AddRecipeLinks(entries, order, recipeLinks, ingredient.value.measurementUnit);
    }
    assert shoppingIds[..|shoppingIds|] == shoppingIds;
    r := Success(Tally(entries, order));
  }

  /** The second loop: the header, then one appended line per key in order. */
  method RenderContent(order: seq<IngredientId>, entries: map<IngredientId, Entry>,
                       ingredientOf: int -> Option<Ingredient>)
    returns (r: Result<string, Error>)
    requires forall k :: k in order ==> k in entries
    ensures r == match RenderLines(order, entries, ingredientOf)
                 case Failure(e) => Failure(e)
                 case Success(body) => Success(Header + body)
  {
    var content := Header;
    assert content[|Header|..] == "";
    for k := 0 to |order|
      invariant |Header| <= |content| && content[..|Header|] == Header
      invariant RenderLines(order[..k], entries, ingredientOf) == Success(content[|Header|..])
    {
      var key := order[k];
      assert order[..k + 1][..k] == order[..k];
      var ingredient := ingredientOf(key);
      if ingredient.None? {
        RenderFailureIsFinal(order, k + 1, entries, ingredientOf);
        return Failure(IngredientDoesNotExist(key));
      }
      if ingredient.value.name.None? {
        RenderFailureIsFinal(order, k + 1, entries, ingredientOf);
        return Failure(IngredientNameIsNull(key));
      }
      var line := Line(ingredient.value.name.value, entries[key].unit, entries[key].total);
      assert (content + line)[|Header|..] == content[|Header|..] + line;
      content := content + line;
    }
    assert order[..|order|] == order;
    assert content == Header + content[|Header|..];
    r := Success(content);
  }

  /** `download_shopping_cart(shopping_ids)`: the body of the text response. */
  method DownloadShoppingCart(shoppingIds: seq<RecipeId>, links: RecipeId -> seq<Link>,
                              ingredientOf: int -> Option<Ingredient>)
    returns (r: Result<string, Error>)
    ensures r == Report(shoppingIds, links, ingredientOf)
  {
    var tally := Accumulate(shoppingIds, links, ingredientOf);
    if tally.Failure? {
      return Failure(tally.error);
    }
    r := RenderContent(tally.value.order, tally.value.entries, ingredientOf);
  }

  lemma {:induction false} AggregateFailureIsFinal(ids: seq<RecipeId>, n: nat,
                                                   links: RecipeId -> seq<Link>,
                                                   ingredientOf: int -> Option<Ingredient>)
    requires n <= |ids| && Aggregate(ids[..n], links, ingredientOf).Failure?
    ensures Aggregate(ids, links, ingredientOf) == Aggregate(ids[..n], links, ingredientOf)
    decreases |ids|
  {
    if n < |ids| {
      assert ids[..|ids| - 1][..n] == ids[..n];
      AggregateFailureIsFinal(ids[..|ids| - 1], n, links, ingredientOf);
    } else {
      assert ids[..n] == ids;
    }
  }

  lemma {:induction false} RenderFailureIsFinal(keys: seq<IngredientId>, n: nat,
                                                entries: map<IngredientId, Entry>,
                                                ingredientOf: int -> Option<Ingredient>)
    requires forall k :: k in keys ==> k in entries
    requires n <= |keys| && RenderLines(keys[..n], entries, ingredientOf).Failure?
    ensures RenderLines(keys, entries, ingredientOf) == RenderLines(keys[..n], entries, ingredientOf)
    decreases |keys|
  {
    if n < |keys| {
      assert keys[..|keys| - 1][..n] == keys[..n];
      RenderFailureIsFinal(keys[..|keys| - 1], n, entries, ingredientOf);
    } else {
      assert keys[..n] == keys;
    }
  }

  // ---------------------------------------------------------------------------
  // Reference definitions, independent of the dict

  /** The ingredient ids of a list of links, in order. */
  ghost function LinkIds(links: seq<Link>): seq<IngredientId> {
    seq(|links|, j requires 0 <= j < |links| => links[j].ingredientId)
  }

  /** Every ingredient id the loops meet, in the order they meet them. */
  ghost function MentionedIds(ids: seq<RecipeId>, links: RecipeId -> seq<Link>): seq<IngredientId> {
    if |ids| == 0 then [] else MentionedIds(ids[..|ids| - 1], links) + LinkIds(links(ids[|ids| - 1]))
  }

  /** The sum of the quantities of the links to ingredient `k`. */
  ghost function LinkSum(links: seq<Link>, k: IngredientId): nat {
    if |links| == 0 then 0
    else LinkSum(links[..|links| - 1], k) + (if links[|links| - 1].ingredientId == k then links[|links| - 1].quantity else 0)
  }

  /** The quantity of `k` over every listed recipe, once per listing. */
  ghost function TotalOf(ids: seq<RecipeId>, links: RecipeId -> seq<Link>, k: IngredientId): nat {
    if |ids| == 0 then 0 else TotalOf(ids[..|ids| - 1], links, k) + LinkSum(links(ids[|ids| - 1]), k)
  }

  /** The elements of `s`, each kept at its first occurrence. */
  ghost function Distinct(s: seq<int>): seq<int> {
    if |s| == 0 then []
    else
      var d := Distinct(s[..|s| - 1]);
      if s[|s| - 1] in d then d else d + [s[|s| - 1]]
  }

  ghost predicate NoDuplicates(s: seq<int>) {
    forall i, j :: 0 <= i < j < |s| ==> s[i] != s[j]
  }

  /** The index of the first occurrence of `x` in `s`. */
  ghost function FirstIndex(s: seq<int>, x: int): (i: nat)
    requires x in s
    ensures i < |s| && s[i] == x && forall j :: 0 <= j < i ==> s[j] != x
  {
    if s[0] == x then 0 else 1 + FirstIndex(s[1..], x)
  }

  /** Recipe `ids[i]` is the first of the cart whose links mention `k`. */
  ghost predicate FirstMentionAt(ids: seq<RecipeId>, links: RecipeId -> seq<Link>, i: int, k: IngredientId) {
    && 0 <= i < |ids|
    && k in LinkIds(links(ids[i]))
    && forall j :: 0 <= j < i ==> k !in LinkIds(links(ids[j]))
  }

  /** Recipe `ids[i]` is the first of the cart with no ingredient row of the same id. */
  ghost predicate FirstMissingAt(ids: seq<RecipeId>, ingredientOf: int -> Option<Ingredient>, i: int) {
    && 0 <= i < |ids|
    && ingredientOf(ids[i]).None?
    && forall j :: 0 <= j < i ==> ingredientOf(ids[j]).Some?
  }

  /** Key `keys[i]` is the first of `keys` that cannot be printed. */
  ghost predicate FirstUnprintableAt(keys: seq<IngredientId>, ingredientOf: int -> Option<Ingredient>, i: int) {
    && 0 <= i < |keys|
    && !Printable(ingredientOf(keys[i]))
    && forall j :: 0 <= j < i ==> Printable(ingredientOf(keys[j]))
  }

  /** The error raised for a key that cannot be printed: no row at all, or a null name. */
  function RenderError(key: IngredientId, ingredient: Option<Ingredient>): Error {
    if ingredient.None? then IngredientDoesNotExist(key) else IngredientNameIsNull(key)
  }

  /** The line printed for key `k`, or nothing for a key that cannot be printed. */
  ghost function LineFor(k: IngredientId, entries: map<IngredientId, Entry>,
                         ingredientOf: int -> Option<Ingredient>): string
  {
    if k in entries && Printable(ingredientOf(k))
    then Line(ingredientOf(k).value.name.value, entries[k].unit, entries[k].total)
    else ""
  }

  ghost function Lines(keys: seq<IngredientId>, entries: map<IngredientId, Entry>,
                       ingredientOf: int -> Option<Ingredient>): seq<string>
  {
    seq(|keys|, i requires 0 <= i < |keys| => LineFor(keys[i], entries, ingredientOf))
  }

  ghost function Concat(lines: seq<string>): string {
    if |lines| == 0 then "" else Concat(lines[..|lines| - 1]) + lines[|lines| - 1]
  }

  // ---------------------------------------------------------------------------
  // Facts about the reference definitions

  lemma {:induction false} FirstIndexOfPrefix(p: seq<int>, x: int, y: int)
    requires y in p
    ensures FirstIndex(p + [x], y) == FirstIndex(p, y)
  {
    var s := p + [x];
    var f, g := FirstIndex(s, y), FirstIndex(p, y);
    assert s[g] == y;
    assert forall j :: 0 <= j < |p| ==> s[j] == p[j];
  }

  /** `Distinct` keeps every element once, in order of first occurrence. */
  lemma {:induction false} DistinctSpec(s: seq<int>)
    ensures forall x :: x in Distinct(s) <==> x in s
    ensures NoDuplicates(Distinct(s))
    ensures forall i, j :: 0 <= i < j < |Distinct(s)| ==>
              FirstIndex(s, Distinct(s)[i]) < FirstIndex(s, Distinct(s)[j])
  {
    if |s| > 0 {
      var p, x := s[..|s| - 1], s[|s| - 1];
      assert s == p + [x];
      DistinctSpec(p);
      var d := Distinct(p);
      forall y | y in p ensures FirstIndex(s, y) == FirstIndex(p, y) {
        FirstIndexOfPrefix(p, x, y);
      }
      if x !in d {
        assert x !in p;
        assert FirstIndex(s, x) == |p| by {
          assert forall j :: 0 <= j < |p| ==> s[j] == p[j];
        }
        forall i | 0 <= i < |d| ensures FirstIndex(s, d[i]) < FirstIndex(s, x) {
          assert d[i] in p;
        }
      }
    }
  }

  lemma DistinctAppend(s: seq<int>, x: int)
    ensures Distinct(s + [x]) == if x in s then Distinct(s) else Distinct(s) + [x]
  {
    assert (s + [x])[..|s|] == s;
    DistinctSpec(s);
  }

  lemma LinkIdsSnoc(links: seq<Link>)
    requires |links| > 0
    ensures LinkIds(links) == LinkIds(links[..|links| - 1]) + [links[|links| - 1].ingredientId]
  {
  }

  /** `k` is mentioned iff the links of some listed recipe name it. */
  lemma {:induction false} MentionedIdsMember(ids: seq<RecipeId>, links: RecipeId -> seq<Link>, k: IngredientId)
    ensures k in MentionedIds(ids, links) <==> exists j :: 0 <= j < |ids| && k in LinkIds(links(ids[j]))
  {
    if |ids| > 0 {
      var p := ids[..|ids| - 1];
      MentionedIdsMember(p, links, k);
      if k in MentionedIds(p, links) {
        var j :| 0 <= j < |p| && k in LinkIds(links(p[j]));
        assert ids[j] == p[j];
      }
      if exists j :: 0 <= j < |ids| && k in LinkIds(links(ids[j])) {
        var j :| 0 <= j < |ids| && k in LinkIds(links(ids[j]));
        if j < |p| { assert p[j] == ids[j]; }
      }
    }
  }

  /** A cart split in two adds up: the totals of the halves sum to the whole. */
  lemma {:induction false} TotalOfConcat(a: seq<RecipeId>, b: seq<RecipeId>, links: RecipeId -> seq<Link>, k: IngredientId)
    ensures TotalOf(a + b, links, k) == TotalOf(a, links, k) + TotalOf(b, links, k)
    decreases |b|
  {
    if |b| == 0 {
      assert a + b == a;
    } else {
      var q := b[..|b| - 1];
      assert (a + b)[..|a + b| - 1] == a + q;
      TotalOfConcat(a, q, links, k);
    }
  }

  /** The totals do not depend on the order in which the cart lists its recipes. */
  lemma {:induction false} TotalOfPermutation(a: seq<RecipeId>, b: seq<RecipeId>, links: RecipeId -> seq<Link>, k: IngredientId)
    requires multiset(a) == multiset(b)
    ensures TotalOf(a, links, k) == TotalOf(b, links, k)
    decreases |a|
  {
    if |a| == 0 {
      assert |b| == |multiset(b)| == 0;
    } else {
      var x := a[|a| - 1];
      assert x in multiset(b);
      var m :| 0 <= m < |b| && b[m] == x;
      MultisetRemove(a, b, m);
      TotalOfPermutation(a[..|a| - 1], b[..m] + b[m + 1..], links, k);
      TotalOfRemove(b, m, links, k);
    }
  }

  /** Removing the last element of `a` and a matching element of `b` keeps the multisets equal. */
  lemma MultisetRemove(a: seq<RecipeId>, b: seq<RecipeId>, m: nat)
    requires multiset(a) == multiset(b) && |a| > 0 && m < |b| && b[m] == a[|a| - 1]
    ensures multiset(a[..|a| - 1]) == multiset(b[..m] + b[m + 1..])
  {
    var x := a[|a| - 1];
    assert a == a[..|a| - 1] + [x];
    assert b == b[..m] + [x] + b[m + 1..];
    assert multiset(a[..|a| - 1]) == multiset(a) - multiset{x};
    assert multiset(b[..m] + b[m + 1..]) == multiset(b) - multiset{x};
  }

  /** The recipe at position `m` contributes its quantities once to the total. */
  lemma TotalOfRemove(b: seq<RecipeId>, m: nat, links: RecipeId -> seq<Link>, k: IngredientId)
    requires m < |b|
    ensures TotalOf(b, links, k) == TotalOf(b[..m] + b[m + 1..], links, k) + LinkSum(links(b[m]), k)
  {
    var b1, b2 := b[..m], b[m + 1..];
    assert b == (b1 + [b[m]]) + b2;
    TotalOfConcat(b1 + [b[m]], b2, links, k);
    TotalOfConcat(b1, b2, links, k);
    assert (b1 + [b[m]])[..|b1|] == b1;
  }

  /** A recipe listed twice is counted twice. */
  lemma RecipeListedTwice(ids: seq<RecipeId>, r: RecipeId, links: RecipeId -> seq<Link>, k: IngredientId)
    ensures TotalOf(ids + [r, r], links, k) == TotalOf(ids, links, k) + 2 * LinkSum(links(r), k)
  {
    assert (ids + [r, r])[..|ids| + 1] == ids + [r];
    assert (ids + [r])[..|ids|] == ids;
  }

  // ---------------------------------------------------------------------------
  // What the accumulation computes

  /** One link: a new id joins the order, its total grows, old units stay. */
  lemma AddLinkMeaning(t: Tally, link: Link, unit: string, seen: seq<IngredientId>)
    requires t.Valid() && t.order == Distinct(seen)
    ensures var r := AddLink(t, link, unit);
      && r.order == Distinct(seen + [link.ingredientId])
      && (forall k :: k in t.entries ==> k in r.entries && r.entries[k].unit == t.entries[k].unit)
      && (forall k :: k in r.entries && k !in t.entries ==> r.entries[k].unit == unit)
      && (forall k :: k in r.entries ==>
            r.entries[k].total == (if k in t.entries then t.entries[k].total else 0)
                                  + (if k == link.ingredientId then link.quantity else 0))
  {
    DistinctAppend(seen, link.ingredientId);
    DistinctSpec(seen);
  }

  /** One recipe's links: new ids join the order, totals grow, old units stay. */
  lemma {:induction false} AddLinksMeaning(t: Tally, recipeLinks: seq<Link>, unit: string, seen: seq<IngredientId>)
    requires t.Valid() && t.order == Distinct(seen)
    ensures var r := AddLinks(t, recipeLinks, unit);
      && r.order == Distinct(seen + LinkIds(recipeLinks))
      && (forall k :: k in t.entries ==> k in r.entries && r.entries[k].unit == t.entries[k].unit)
      && (forall k :: k in r.entries && k !in t.entries ==> r.entries[k].unit == unit)
      && (forall k :: k in r.entries ==>
            r.entries[k].total == (if k in t.entries then t.entries[k].total else 0) + LinkSum(recipeLinks, k))
    decreases |recipeLinks|
  {
    if |recipeLinks| == 0 {
      assert seen + LinkIds(recipeLinks) == seen;
    } else {
      var p, l := recipeLinks[..|recipeLinks| - 1], recipeLinks[|recipeLinks| - 1];
      AddLinksMeaning(t, p, unit, seen);
      var mid := AddLinks(t, p, unit);
      AddLinkMeaning(mid, l, unit, seen + LinkIds(p));
      LinkIdsSnoc(recipeLinks);
      assert seen + LinkIds(recipeLinks) == (seen + LinkIds(p)) + [l.ingredientId];
      var r := AddLink(mid, l, unit);
      forall k | k in r.entries
        ensures r.entries[k].total == (if k in t.entries then t.entries[k].total else 0) + LinkSum(recipeLinks, k)
      {
        if k !in mid.entries {
          DistinctSpec(seen + LinkIds(p));
          LinkSumUnmentioned(p, k);
        }
      }
    }
  }

  lemma {:induction false} LinkSumUnmentioned(recipeLinks: seq<Link>, k: IngredientId)
    requires k !in LinkIds(recipeLinks)
    ensures LinkSum(recipeLinks, k) == 0
    decreases |recipeLinks|
  {
    if |recipeLinks| > 0 {
      LinkIdsSnoc(recipeLinks);
      LinkSumUnmentioned(recipeLinks[..|recipeLinks| - 1], k);
    }
  }

  lemma {:induction false} TotalOfUnmentioned(ids: seq<RecipeId>, links: RecipeId -> seq<Link>, k: IngredientId)
    requires k !in MentionedIds(ids, links)
    ensures TotalOf(ids, links, k) == 0
    decreases |ids|
  {
    if |ids| > 0 {
      TotalOfUnmentioned(ids[..|ids| - 1], links, k);
      LinkSumUnmentioned(links(ids[|ids| - 1]), k);
    }
  }

  /** A successful accumulation holds every mentioned id, in first-encounter order, with its total. */
  lemma {:induction false} AggregateMeaning(ids: seq<RecipeId>, links: RecipeId -> seq<Link>,
                                            ingredientOf: int -> Option<Ingredient>)
    requires Aggregate(ids, links, ingredientOf).Success?
    ensures var t := Aggregate(ids, links, ingredientOf).value;
      && t.order == Distinct(MentionedIds(ids, links))
      && (forall k :: k in t.entries <==> k in MentionedIds(ids, links))
      && (forall k :: k in t.entries ==> t.entries[k].total == TotalOf(ids, links, k))
    decreases |ids|
  {
    var t := Aggregate(ids, links, ingredientOf).value;
    if |ids| > 0 {
      var p, r := ids[..|ids| - 1], ids[|ids| - 1];
      AggregateMeaning(p, links, ingredientOf);
      var before := Aggregate(p, links, ingredientOf).value;
      assert t == AddLinks(before, links(r), ingredientOf(r).value.measurementUnit);
      AddLinksMeaning(before, links(r), ingredientOf(r).value.measurementUnit, MentionedIds(p, links));
      forall k | k in t.entries
        ensures t.entries[k].total == TotalOf(ids, links, k)
      {
        if k !in before.entries {
          TotalOfUnmentioned(p, links, k);
        }
      }
    }
    DistinctSpec(MentionedIds(ids, links));
  }

  /**
   * The unit stored for `k` is the unit of the ingredient row whose id is the
   * first recipe that mentions `k`; later recipes never change it.
   */
  lemma {:induction false} UnitOfFirstMention(ids: seq<RecipeId>, links: RecipeId -> seq<Link>,
                                              ingredientOf: int -> Option<Ingredient>, i: int, k: IngredientId)
    requires Aggregate(ids, links, ingredientOf).Success? && FirstMentionAt(ids, links, i, k)
    ensures var t := Aggregate(ids, links, ingredientOf).value;
      && k in t.entries
      && ingredientOf(ids[i]).Some?
      && t.entries[k].unit == ingredientOf(ids[i]).value.measurementUnit
    decreases |ids|
  {
    var p, r := ids[..|ids| - 1], ids[|ids| - 1];
    var before := Aggregate(p, links, ingredientOf).value;
    var unit := ingredientOf(r).value.measurementUnit;
    AggregateMeaning(p, links, ingredientOf);
    AddLinksMeaning(before, links(r), unit, MentionedIds(p, links));
    assert forall j :: 0 <= j < |p| ==> p[j] == ids[j];
    if i < |p| {
      assert FirstMentionAt(p, links, i, k);
      UnitOfFirstMention(p, links, ingredientOf, i, k);
    } else {
      MentionedIdsMember(p, links, k);
      assert k !in before.entries;
      DistinctSpec(MentionedIds(p, links) + LinkIds(links(r)));
    }
  }

  lemma AggregateUnits(ids: seq<RecipeId>, links: RecipeId -> seq<Link>,
                       ingredientOf: int -> Option<Ingredient>)
    requires Aggregate(ids, links, ingredientOf).Success?
    ensures var t := Aggregate(ids, links, ingredientOf).value;
      forall i, k :: FirstMentionAt(ids, links, i, k) ==>
        && k in t.entries
        && ingredientOf(ids[i]).Some?
        && t.entries[k].unit == ingredientOf(ids[i]).value.measurementUnit
  {
    forall i, k | FirstMentionAt(ids, links, i, k)
      ensures var t := Aggregate(ids, links, ingredientOf).value;
        && k in t.entries
        && ingredientOf(ids[i]).Some?
        && t.entries[k].unit == ingredientOf(ids[i]).value.measurementUnit
    {
      UnitOfFirstMention(ids, links, ingredientOf, i, k);
    }
  }

  /**
   * The accumulation fails exactly when some listed recipe id has no ingredient
   * row of the same id, whatever its links; the error names the first such id.
   */
  lemma {:induction false} AggregateFailure(ids: seq<RecipeId>, links: RecipeId -> seq<Link>,
                                            ingredientOf: int -> Option<Ingredient>)
    ensures Aggregate(ids, links, ingredientOf).Failure? <==>
              exists i :: 0 <= i < |ids| && ingredientOf(ids[i]).None?
    ensures forall i :: FirstMissingAt(ids, ingredientOf, i) ==>
              Aggregate(ids, links, ingredientOf) == Failure(IngredientDoesNotExist(ids[i]))
    decreases |ids|
  {
    if |ids| > 0 {
      var p := ids[..|ids| - 1];
      AggregateFailure(p, links, ingredientOf);
      assert forall j :: 0 <= j < |p| ==> p[j] == ids[j];
      forall i | FirstMissingAt(ids, ingredientOf, i)
        ensures Aggregate(ids, links, ingredientOf) == Failure(IngredientDoesNotExist(ids[i]))
      {
        if i < |p| {
          assert FirstMissingAt(p, ingredientOf, i);
        }
      }
    }
  }

  // ---------------------------------------------------------------------------
  // What the rendering computes

  /** The rendered lines are one `LineFor` per key, or the first key that cannot be printed fails. */
  lemma {:induction false} RenderLinesMeaning(keys: seq<IngredientId>, entries: map<IngredientId, Entry>,
                                              ingredientOf: int -> Option<Ingredient>)
    requires forall k :: k in keys ==> k in entries
    ensures RenderLines(keys, entries, ingredientOf).Success? <==>
              forall i :: 0 <= i < |keys| ==> Printable(ingredientOf(keys[i]))
    ensures RenderLines(keys, entries, ingredientOf).Success? ==>
              RenderLines(keys, entries, ingredientOf).value == Concat(Lines(keys, entries, ingredientOf))
    decreases |keys|
  {
    if |keys| > 0 {
      var p := keys[..|keys| - 1];
      RenderLinesMeaning(p, entries, ingredientOf);
      assert forall i :: 0 <= i < |p| ==> p[i] == keys[i];
      assert Lines(keys, entries, ingredientOf)[..|p|] == Lines(p, entries, ingredientOf);
    }
  }

  /**
   * Rendering fails with the error of the first key that cannot be printed:
   * `DoesNotExist` when it has no row, `TypeError` when its name is null.
   */
  lemma {:induction false} RenderFailure(keys: seq<IngredientId>, entries: map<IngredientId, Entry>,
                                         ingredientOf: int -> Option<Ingredient>, i: int)
    requires forall k :: k in keys ==> k in entries
    requires FirstUnprintableAt(keys, ingredientOf, i)
    ensures RenderLines(keys, entries, ingredientOf) == Failure(RenderError(keys[i], ingredientOf(keys[i])))
    decreases |keys|
  {
    var p := keys[..|keys| - 1];
    assert forall j :: 0 <= j < |p| ==> p[j] == keys[j];
    if i < |p| {
      assert FirstUnprintableAt(p, ingredientOf, i);
      RenderFailure(p, entries, ingredientOf, i);
    } else {
      RenderLinesMeaning(p, entries, ingredientOf);
    }
  }

  /** An empty cart downloads exactly the header. */
  lemma EmptyCart(links: RecipeId -> seq<Link>, ingredientOf: int -> Option<Ingredient>)
    ensures Report([], links, ingredientOf) == Success(Header)
  {
    assert Header + "" == Header;
  }

  /**
   * The download succeeds iff every recipe id has an ingredient row of the same
   * id and every mentioned ingredient can be printed.
   */
  lemma ReportSucceeds(ids: seq<RecipeId>, links: RecipeId -> seq<Link>,
                       ingredientOf: int -> Option<Ingredient>)
    ensures Report(ids, links, ingredientOf).Success? <==>
              && (forall i :: 0 <= i < |ids| ==> ingredientOf(ids[i]).Some?)
              && (forall k :: k in MentionedIds(ids, links) ==> Printable(ingredientOf(k)))
  {
    AggregateFailure(ids, links, ingredientOf);
    if Aggregate(ids, links, ingredientOf).Success? {
      var t := Aggregate(ids, links, ingredientOf).value;
      var m := MentionedIds(ids, links);
      AggregateMeaning(ids, links, ingredientOf);
      RenderLinesMeaning(t.order, t.entries, ingredientOf);
      DistinctSpec(m);
      PrintableKeys(t.order, m, ingredientOf);
    }
  }

  /** Printability of every key only depends on which keys there are. */
  lemma PrintableKeys(keys: seq<IngredientId>, ids: seq<IngredientId>,
                      ingredientOf: int -> Option<Ingredient>)
    requires forall k :: k in keys <==> k in ids
    ensures (forall i :: 0 <= i < |keys| ==> Printable(ingredientOf(keys[i])))
        <==> (forall k :: k in ids ==> Printable(ingredientOf(k)))
  {
    if forall i :: 0 <= i < |keys| ==> Printable(ingredientOf(keys[i])) {
      forall k | k in ids
        ensures Printable(ingredientOf(k))
      {
        var i :| 0 <= i < |keys| && keys[i] == k;
      }
    } else {
      var i :| 0 <= i < |keys| && !Printable(ingredientOf(keys[i]));
      var k := keys[i];
      assert k in keys;
      assert k in ids && !Printable(ingredientOf(k));
    }
  }

  /**
   * A successful download is the header and one line per distinct mentioned
   * id, in first-encounter order, each with the id's total over the cart.
   */
  lemma ReportContents(ids: seq<RecipeId>, links: RecipeId -> seq<Link>,
                       ingredientOf: int -> Option<Ingredient>)
    requires Report(ids, links, ingredientOf).Success?
    ensures Aggregate(ids, links, ingredientOf).Success?
    ensures var t := Aggregate(ids, links, ingredientOf).value;
      && t.order == Distinct(MentionedIds(ids, links))
      && (forall k :: k in t.entries ==> t.entries[k].total == TotalOf(ids, links, k))
      && Report(ids, links, ingredientOf).value == Header + Concat(Lines(t.order, t.entries, ingredientOf))
  {
    var t := Aggregate(ids, links, ingredientOf).value;
    AggregateMeaning(ids, links, ingredientOf);
    RenderLinesMeaning(t.order, t.entries, ingredientOf);
  }
}
