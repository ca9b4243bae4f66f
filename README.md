# Foodgram backend core, modelled in Dafny

This project models the logic of a recipe-sharing backend (Django REST
framework): the shopping-list download, an aggregator that sums ingredient
quantities over the recipes in a user's cart and prints them as plain text,
and the small validators and parsers around it — the duplicate-ingredient
check and the self-follow checks of the serializers, the `data:` URL split of
the image field, and the defaulting and guards of the custom user manager.

Modules, one per source component:

- `ShoppingCart` (`shopping_cart.dfy`): `download_shopping_cart`. The routine is
  imperative, as in the source. A fresh dict and its insertion order are filled by two nested
  loops, and the content is built by appending lines. The methods are proved
  equal to specification folds (`Aggregate`, `RenderLines`, `Report`). Lemmas
  then say what those compute: the keys, the totals, the unit kept per key,
  the line order, and when the call fails.
- `ImageField` (`image_field.dfy`): `Picture2Text.to_internal_value`, which both
  serializer modules contain line for line (lines 24-31 of each file) and which
  is therefore modelled once.
- `ApiSerializers`, `RecipeAppSerializers`: the validators of
  `backend/api/serializers.py` and `backend/recipe_app/api/serializers.py`.
- `UserManager` (`user_manager.dfy`): `CustomUserManager`.
- `Text`: `str(n)`, `str.split`, substring search; `Wrappers`, `DrfErrors`: the
  result and exception types.

The database reads are parameters. `links(r)` stands for
`RecipeIngredients.objects.filter(recipe_id=r)`, and `ingredientOf(id)` stands for
`Ingredients.objects.get(id=id)`, which is `None` where the source raises
`DoesNotExist`. Exceptions become `Failure` values.

## Model

| member | source | states |
|---|---|---|
| `ShoppingCart.DownloadShoppingCart` | backend/api/download_shopping_cart.py:6-36 | the body of the response is exactly `Report` of the cart, its link rows and its ingredient rows, errors included |
| `ShoppingCart.Accumulate` | backend/api/download_shopping_cart.py:7-26 | the nested loops starting from an empty dict leave exactly the accumulator `Aggregate`, or raise its `DoesNotExist` |
| `ShoppingCart.AddRecipeLinks` | backend/api/download_shopping_cart.py:14-26 | the inner loop over one recipe's links turns dict and key order into `AddLinks` of them |
| `ShoppingCart.RenderContent` | backend/api/download_shopping_cart.py:27-34 | the content is the header followed by `RenderLines` of the keys in order, or the first rendering error |
| `ShoppingCart.AddLink` | backend/api/download_shopping_cart.py:19-26 | one link keeps the invariant that the key order lists every key of the dict exactly once |
| `ShoppingCart.AddLinks` | backend/api/download_shopping_cart.py:14-26 | a recipe's links keep that invariant |
| `ShoppingCart.Aggregate` | backend/api/download_shopping_cart.py:9-26 | every successful accumulator satisfies that invariant |
| `ShoppingCart.RenderLines` | backend/api/download_shopping_cart.py:28-34 | rendering fails only when some key has no ingredient row or a null name |
| `ShoppingCart.AddLinkMeaning` | backend/api/download_shopping_cart.py:19-26 | a new id is appended to the key order with `[quantity, unit]`; a known id only has its total raised by the quantity, its unit untouched |
| `ShoppingCart.AddLinksMeaning` | backend/api/download_shopping_cart.py:14-26 | after a recipe's links the key order is the first-occurrence order of all ids seen, each total grows by that recipe's quantities of the id, existing units stay and new keys get the recipe's unit |
| `ShoppingCart.AggregateMeaning` | backend/api/download_shopping_cart.py:9-26 | the keys are exactly the ingredient ids mentioned by the cart's links, in first-encounter order, and each total is the sum of the quantities of that id over every listed recipe |
| `ShoppingCart.UnitOfFirstMention` | backend/api/download_shopping_cart.py:13-26 | the unit stored for an id is the `measurement_unit` of the ingredient row whose id is the first recipe mentioning it |
| `ShoppingCart.AggregateUnits` | backend/api/download_shopping_cart.py:13-26 | the same, for every id at once; later recipes never overwrite a unit |
| `ShoppingCart.AggregateFailure` | backend/api/download_shopping_cart.py:9-14 | accumulation fails iff some listed recipe id has no ingredient row with that id, whatever its links are; the error names the first such id |
| `ShoppingCart.RenderLinesMeaning` | backend/api/download_shopping_cart.py:28-34 | rendering succeeds iff every key has an ingredient row with a non-null name, and then yields one `name unit total\n  ` line per key, in key order |
| `ShoppingCart.RenderFailure` | backend/api/download_shopping_cart.py:28-34 | rendering stops at the first key that cannot be printed, with `DoesNotExist` when it has no row and `TypeError` when its name is null |
| `ShoppingCart.EmptyCart` | backend/api/download_shopping_cart.py:7-27 | an empty cart downloads exactly `Ingredients for shopping :)\n` |
| `ShoppingCart.ReportSucceeds` | backend/api/download_shopping_cart.py:9-34 | the download succeeds iff every recipe id has a same-id ingredient row and every ingredient id the cart's links mention has a row with a non-null name |
| `ShoppingCart.ReportContents` | backend/api/download_shopping_cart.py:6-36 | a successful download is the header plus one line per distinct mentioned id, in first-encounter order, each with that id's total over the cart |
| `ShoppingCart.TotalOfConcat` | backend/api/download_shopping_cart.py:9-21 | the total of an id over a cart split in two is the sum of its totals over the two parts |
| `ShoppingCart.TotalOfPermutation` | backend/api/download_shopping_cart.py:9-21 | the totals do not depend on the order in which the cart lists recipes |
| `ShoppingCart.RecipeListedTwice` | backend/api/download_shopping_cart.py:9-21 | a recipe listed twice contributes its quantities twice |
| `ShoppingCart.DistinctSpec` | backend/api/download_shopping_cart.py:24-28 | the first-occurrence order keeps each id once, holds exactly the ids met, and orders them by first occurrence |
| `Text.DecimalString` | backend/api/download_shopping_cart.py:34 | `str(total)` is a non-empty string of decimal digits without a leading zero |
| `Text.DecimalRoundTrip` | backend/api/download_shopping_cart.py:34 | reading the printed total back gives the total |
| `Text.Split` | backend/api/serializers.py:27 | `s.split(sep)` gives at least one part, no part contains `sep`, joining the parts with `sep` gives back `s`, and the first cut is at the leftmost occurrence of `sep` (a string without `sep` is one part) |
| `Text.LastSegment` | backend/api/serializers.py:28 | `s.split('/')[-1]` is the suffix of `s` after its last `/`, or all of `s` when it holds none |
| `ImageField.ToInternalValue` | backend/api/serializers.py:24-31 | the input is handed on unchanged iff it is not a string starting with `data:image`; a failure never comes from a two-part split; a produced file name starts with `temp.` |
| `ImageField.ExtensionAfterLastSlash` | backend/recipe_app/api/serializers.py:28 | the extension holds no `/`, ends the header, and follows its last `/` |
| `ImageField.MarkerSplitsOnce` | backend/api/serializers.py:27 | a string made of a header, `;base64,` and a payload, neither of which contains the marker, splits into exactly those two parts |
| `ImageField.DecodedHadOneMarker` | backend/recipe_app/api/serializers.py:26-29 | a decoded data string is header + `;base64,` + payload with the marker in neither part, the header keeps the `data:image` prefix, and the name is `temp.` + the header's extension |
| `ImageField.OneMarkerDecodes` | backend/api/serializers.py:26-29 | conversely every such data string is decoded, with name `temp.` + extension and the payload after the marker |
| `ImageField.NoMarkerFails` | backend/recipe_app/api/serializers.py:27 | a data string without the marker fails to unpack, with one value where two are needed |
| `ApiSerializers.ValidateIngredients` | backend/api/serializers.py:244-253 | raises the duplicate-ingredient `ValidationError` iff two items share an id, and otherwise returns its input unchanged (so an empty list is accepted) |
| `ApiSerializers.SetOfSize` | backend/api/serializers.py:248 | `len(set(ids)) <= len(ids)`, with equality iff no id repeats |
| `ApiSerializers.DuplicatesIgnoreOrder` | backend/api/serializers.py:246-248 | rejection depends only on the multiset of ids, not on the order of the items |
| `ApiSerializers.ValidateFollowing` | backend/api/serializers.py:301-306 | `KeyError` without a `following` entry; `ValidationError('Self follow attempt')` iff `following` is the requesting user; otherwise the data unchanged |
| `RecipeAppSerializers.Validate` | backend/recipe_app/api/serializers.py:93-98 | the same guard with this serializer's own message: rejects iff `following` is the requesting user, otherwise returns the data unchanged |
| `UserManager.CreateUserRecord` | backend/recipe_app/users/models.py:9-18 | a falsy username raises first, then a falsy password; otherwise the user is built from exactly the username, the extra fields and the password |
| `UserManager.CreateUser` | backend/recipe_app/users/models.py:20-23 | succeeds iff username and password are truthy; `is_staff` and `is_superuser` are `False` only where the caller gave none, and every supplied field is kept as given |
| `UserManager.CreateSuperuser` | backend/recipe_app/users/models.py:25-34 | both flags default to `True`; a flag supplied as anything but `True` raises its `ValueError` before the username and password guards; with both flags `True`, a falsy username and then a falsy password raise their own `ValueError`s; a created superuser has both flags `True` and keeps every supplied field |

## Notes

The model follows the code where a tidier design would differ:

- The unit printed for an ingredient is looked up with the recipe id
  (`Ingredients.objects.get(id=shopping_id)`, download_shopping_cart.py:13). It
  is not looked up by the ingredient's own id. It is attached only when the
  ingredient is first met (`UnitOfFirstMention`).
- A recipe id without an ingredient row of the same id makes the whole
  download fail, even when that recipe has no links (`AggregateFailure`).
- The cart is a list, not a set. A repeated recipe id would be counted once
  per occurrence (`RecipeListedTwice`). Cart rows are unique per (recipe, user)
  (backend/recipe/models.py:117-118), so the view never passes a repeat.
  The model takes any list.
- A line is `name unit total` followed by a newline and two spaces
  (download_shopping_cart.py:31-34). Lines follow dict insertion order, that is,
  first-encounter order.
- An ingredient name may be null (backend/recipe/models.py:8-9). `str()` of such
  a row raises `TypeError`, modelled as `IngredientNameIsNull`.
- `validate_following` in `backend/api/serializers.py` is a field-level hook.
  Its serializer declares no `following` field, so the framework would not call
  it. It is modelled as written, on a data dict.
- The self-follow checks compare `self.context['request'].user` with
  `data['following']`. Both users are modelled as their primary keys, compared
  with `==`, which is how Django compares two model instances. An anonymous
  requester, which never equals a stored user, and a context without a
  `request` entry, which raises `KeyError`, are not modelled.
- `extra_fields` cannot hold `username` or `password`, because Python binds
  those names to the named parameters. This is the `KeywordOnly` precondition.

## Left out

- Database access (`filter`, `get`, `save`), `print` (download_shopping_cart.py:30) and the `HttpResponse` wrapper with its content type. Reads become the `links` and `ingredientOf` parameters. The model returns the response body only.
- A null `quantity` (backend/recipe/models.py:90-93) is not modelled. Quantities are naturals; the source would crash adding `None`.
- Base64 decoding, `ContentFile` and the framework's own `ImageField.to_internal_value`, which these call into, are foreign code. The model returns the file name and the still-encoded payload that would be handed on.
- `Name2Hex` (webcolors colour lookup) is a foreign library call and is not modelled.
- `RecipesSerializer.create`/`update` and the other `create`/`perform_create` methods are not modelled: they are ORM writes only.
- `set_password` (hashing), `save(using=self.db)` and the model constructor's own rejection of unknown field names are framework code. The model records the arguments only.
- Views, URL routing, pagination, filters, admin classes, forms, the CSV import command and JWT login/logout have no logic of their own, or sit on clocks, cookies and crypto.
