/**
 * The validators of the recipe API's serializers: the duplicate-ingredient
 * check of the recipe serializer and the self-follow check of the follow
 * serializer. The image field they use is the `ImageField` module.
 */
module ApiSerializers {
  import opened Wrappers
  import opened DrfErrors

  type UserId = int

  const DuplicatedMessage := "Some ingredients are duplicated. Please check your data"
  const SelfFollowMessage := "Self follow attempt"

  /** One item of a recipe's `ingredients` list; only its `id` is inspected. */
  datatype IngredientItem = IngredientItem(id: int, amount: int)

  /** Two items of the list name the same ingredient. */
  ghost predicate HasDuplicateIds(data: seq<IngredientItem>) {
    exists i, j :: 0 <= i < j < |data| && data[i].id == data[j].id
  }

  /** The ids of the items, in order. */
  ghost function Ids(data: seq<IngredientItem>): seq<int> {
    seq(|data|, i requires 0 <= i < |data| => data[i].id)
  }

  lemma DuplicateIdsInIds(data: seq<IngredientItem>)
    ensures HasDuplicateIds(data) <==> !forall i, j :: 0 <= i < j < |Ids(data)| ==> Ids(data)[i] != Ids(data)[j]
  {
    assert |Ids(data)| == |data|;
    assert forall i :: 0 <= i < |data| ==> Ids(data)[i] == data[i].id;
  }

  /** `set(s)`. */
  function SetOf(s: seq<int>): set<int> {
    set x | x in s
  }

  /** `len(set(s)) <= len(s)`, with equality exactly when `s` repeats nothing. */
  lemma {:induction false} SetOfSize(s: seq<int>)
    ensures |SetOf(s)| <= |s|
    ensures |SetOf(s)| == |s| <==> forall i, j :: 0 <= i < j < |s| ==> s[i] != s[j]
    decreases |s|
  {
    if |s| > 0 {
      var p, x := s[..|s| - 1], s[|s| - 1];
      assert s == p + [x];
      SetOfSize(p);
      assert SetOf(s) == SetOf(p) + {x};
      assert forall i :: 0 <= i < |p| ==> s[i] == p[i];
      if x in p {
        var k :| 0 <= k < |p| && p[k] == x;
        assert s[k] == s[|s| - 1];
      }
    }
  }

  /**
   * `RecipesSerializer.validate_ingredients`: collect the ids, then reject the
   * list when the set of ids is smaller than the list of ids.
   */
  method ValidateIngredients(data: seq<IngredientItem>) returns (r: Result<seq<IngredientItem>, SerializerError>)
    ensures r.Failure? <==> HasDuplicateIds(data)
    ensures r.Failure? ==> r.error == ValidationError(DuplicatedMessage)
    ensures r.Success? ==> r.value == data
  {
    var ingredients: seq<int> := [];
    for i := 0 to |data|
      invariant ingredients == Ids(data[..i])
    {
      ingredients := ingredients + [data[i].id];
    }
    assert data[..|data|] == data;
    SetOfSize(ingredients);
    DuplicateIdsInIds(data);
    if |ingredients| != |SetOf(ingredients)| {
      r := Failure(ValidationError(DuplicatedMessage));
    } else {
      r := Success(data);
    }
  }

  /** Whether the list is rejected depends only on which ids it holds how often, not on their order. */
  lemma DuplicatesIgnoreOrder(a: seq<IngredientItem>, b: seq<IngredientItem>)
    requires multiset(Ids(a)) == multiset(Ids(b))
    ensures HasDuplicateIds(a) <==> HasDuplicateIds(b)
  {
    SetOfSize(Ids(a));
    SetOfSize(Ids(b));
    DuplicateIdsInIds(a);
    DuplicateIdsInIds(b);
    assert |Ids(a)| == |multiset(Ids(a))| == |multiset(Ids(b))| == |Ids(b)|;
    assert SetOf(Ids(a)) == SetOf(Ids(b)) by {
      forall x ensures x in Ids(a) <==> x in Ids(b) {
        assert x in Ids(a) <==> x in multiset(Ids(a));
        assert x in Ids(b) <==> x in multiset(Ids(b));
      }
    }
  }

  /**
   * `UserFollowSerializer.validate_following`: reject a follow request whose
   * `following` is the requesting user.
   */
  function ValidateFollowing(requestUser: UserId, data: map<string, UserId>): (r: Result<map<string, UserId>, SerializerError>)
    ensures r.Success? <==> "following" in data && data["following"] != requestUser
    ensures "following" !in data ==> r == Failure(KeyError("following"))
    ensures "following" in data && data["following"] == requestUser ==> r == Failure(ValidationError(SelfFollowMessage))
    ensures r.Success? ==> r.value == data
  {
    if "following" !in data then Failure(KeyError("following"))
    else if requestUser == data["following"] then Failure(ValidationError(SelfFollowMessage))
    else Success(data)
  }
}
