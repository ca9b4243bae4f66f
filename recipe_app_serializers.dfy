/**
 * The follow serializer of the second API package: its object-level `validate`
 * rejects a follow of oneself. Its image field is the `ImageField` module.
 */
module RecipeAppSerializers {
  import opened Wrappers
  import opened DrfErrors

  type UserId = int

  const SelfFollowMessage := "Попытка подписаться на самого себя"

  /** `FollowSerializer.validate`. */
  function Validate(requestUser: UserId, data: map<string, UserId>): (r: Result<map<string, UserId>, SerializerError>)
    ensures r.Success? <==> "following" in data && data["following"] != requestUser
    ensures "following" !in data ==> r == Failure(KeyError("following"))
    ensures "following" in data && data["following"] == requestUser ==> r == Failure(ValidationError(SelfFollowMessage))
    ensures r.Success? ==> r.value == data
  {
    if "following" !in data then Failure(KeyError("following"))
    else if requestUser == data["following"] then Failure(ValidationError(SelfFollowMessage))
    else Success(data)
  }
}
