/**
 * The custom user manager: `_create_user` refuses a falsy username or password,
 * `create_user` and `create_superuser` first default the two permission flags
 * in the keyword-argument dict, and `create_superuser` then insists that both
 * are exactly `True`. Building the user is modelled as the record of what the
 * model is constructed with and what `set_password` receives; hashing the
 * password and saving are left to the framework.
 */
module UserManager {
  import opened Wrappers

  /** The Python values a caller passes, as far as truthiness and `is True` can tell them apart. */
  datatype PyValue = PyNone | PyBool(b: bool) | PyInt(i: int) | PyStr(s: string)

  /** `bool(v)`. */
  predicate Truthy(v: PyValue) {
    match v
    case PyNone => false
    case PyBool(b) => b
    case PyInt(i) => i != 0
    case PyStr(s) => s != ""
  }

  /** `v is True`: only the boolean `True` itself. */
  predicate IsTrue(v: PyValue) {
    v == PyBool(true)
  }

  const IsStaff := "is_staff"
  const IsSuperuser := "is_superuser"

  const UsernameRequired := "username must be provided"
  const PasswordRequired := "Password must be provided"
  const StaffRequired := "Superuser must have is_staff=True."
  const SuperuserRequired := "Superuser must have is_superuser=True."

  datatype ManagerError = ValueError(message: string)

  /** The unsaved user: the model's keyword arguments, and the raw password handed to `set_password`. */
  datatype NewUser = NewUser(username: PyValue, fields: map<string, PyValue>, password: PyValue)

  /**
   * `**extra_fields` never holds a key that Python binds to a named parameter
   * of the manager methods.
   */
  predicate KeywordOnly(extraFields: map<string, PyValue>) {
    "username" !in extraFields && "password" !in extraFields
  }

  /** `extra_fields.get(key)` once `extra_fields.setdefault(key, value)` has run. */
  function ValueAfterDefault(extraFields: map<string, PyValue>, key: string, value: PyValue): PyValue {
    if key in extraFields then extraFields[key] else value
  }

  /** `d.setdefault(key, value)`, for its effect on `d`. */
  function SetDefault(d: map<string, PyValue>, key: string, value: PyValue): (r: map<string, PyValue>)
    ensures r.Keys == d.Keys + {key}
    ensures r[key] == ValueAfterDefault(d, key, value)
    ensures forall k :: k in d && k != key ==> r[k] == d[k]
  {
    if key in d then d else d[key := value]
  }

  /** `_create_user`: the two guards, then the user built from exactly these arguments. */
  function CreateUserRecord(username: PyValue, password: PyValue, extraFields: map<string, PyValue>)
    : (r: Result<NewUser, ManagerError>)
    requires KeywordOnly(extraFields)
    ensures r.Success? <==> Truthy(username) && Truthy(password)
    ensures !Truthy(username) ==> r == Failure(ValueError(UsernameRequired))
    ensures Truthy(username) && !Truthy(password) ==> r == Failure(ValueError(PasswordRequired))
    ensures r.Success? ==> r.value == NewUser(username, extraFields, password)
  {
    if !Truthy(username) then Failure(ValueError(UsernameRequired))
    else if !Truthy(password) then Failure(ValueError(PasswordRequired))
    else Success(NewUser(username, extraFields, password))
  }

  /** `create_user`: both flags default to `False`, only where the caller gave none. */
  method CreateUser(username: PyValue, password: PyValue, extraFields: map<string, PyValue>)
    returns (r: Result<NewUser, ManagerError>)
    requires KeywordOnly(extraFields)
    ensures r.Success? <==> Truthy(username) && Truthy(password)
    ensures !Truthy(username) ==> r == Failure(ValueError(UsernameRequired))
    ensures Truthy(username) && !Truthy(password) ==> r == Failure(ValueError(PasswordRequired))
    ensures r.Success? ==>
      && r.value.username == username && r.value.password == password
      && r.value.fields.Keys == extraFields.Keys + {IsStaff, IsSuperuser}
      && r.value.fields[IsStaff] == ValueAfterDefault(extraFields, IsStaff, PyBool(false))
      && r.value.fields[IsSuperuser] == ValueAfterDefault(extraFields, IsSuperuser, PyBool(false))
      && (forall k :: k in extraFields ==> r.value.fields[k] == extraFields[k])
  {
    var fields := extraFields;
    fields := SetDefault(fields, IsStaff, PyBool(false));
    fields := SetDefault(fields, IsSuperuser, PyBool(false));
    r := CreateUserRecord(username, password, fields);
  }

  /**
   * `create_superuser`: both flags default to `True`; a flag the caller set to
   * anything but `True` is refused before the username and password are looked at.
   */
  method CreateSuperuser(username: PyValue, password: PyValue, extraFields: map<string, PyValue>)
    returns (r: Result<NewUser, ManagerError>)
    requires KeywordOnly(extraFields)
    ensures !IsTrue(ValueAfterDefault(extraFields, IsStaff, PyBool(true))) ==>
              r == Failure(ValueError(StaffRequired))
    ensures IsTrue(ValueAfterDefault(extraFields, IsStaff, PyBool(true))) &&
            !IsTrue(ValueAfterDefault(extraFields, IsSuperuser, PyBool(true))) ==>
              r == Failure(ValueError(SuperuserRequired))
    ensures r.Success? <==>
              && IsTrue(ValueAfterDefault(extraFields, IsStaff, PyBool(true)))
              && IsTrue(ValueAfterDefault(extraFields, IsSuperuser, PyBool(true)))
              && Truthy(username) && Truthy(password)
    ensures IsTrue(ValueAfterDefault(extraFields, IsStaff, PyBool(true))) &&
            IsTrue(ValueAfterDefault(extraFields, IsSuperuser, PyBool(true))) && !Truthy(username) ==>
              r == Failure(ValueError(UsernameRequired))
    ensures IsTrue(ValueAfterDefault(extraFields, IsStaff, PyBool(true))) &&
            IsTrue(ValueAfterDefault(extraFields, IsSuperuser, PyBool(true))) &&
            Truthy(username) && !Truthy(password) ==>
              r == Failure(ValueError(PasswordRequired))
    ensures r.Success? ==>
      && r.value.username == username && r.value.password == password
      && r.value.fields.Keys == extraFields.Keys + {IsStaff, IsSuperuser}
      && r.value.fields[IsStaff] == PyBool(true)
      && r.value.fields[IsSuperuser] == PyBool(true)
      && (forall k :: k in extraFields ==> r.value.fields[k] == extraFields[k])
  {
    var fields := extraFields;
    fields := SetDefault(fields, IsStaff, PyBool(true));
    fields := SetDefault(fields, IsSuperuser, PyBool(true));
    if !IsTrue(fields[IsStaff]) {
      return Failure(ValueError(StaffRequired));
    }
    if !IsTrue(fields[IsSuperuser]) {
      return Failure(ValueError(SuperuserRequired));
    }
    r := CreateUserRecord(username, password, fields);
  }
}
