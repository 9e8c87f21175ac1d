/**
 * The field mapping from an external identity to a social-profile patch: the
 * per-key rename switch and the loop that builds the patch from the identity's
 * properties in order.
 */
module ProfileFields {
  import opened Values

  /** An identity's public properties, in declaration order (`get_object_vars`). */
  type Identity = seq<(string, Value)>

  /** The rename table: identity property name to profile column name. */
  const RenameTable: map<string, string> := map[
    "id" := "identifier",
    "lastname" := "last_name",
    "firstname" := "first_name",
    "birthday" := "birth_date",
    "emailVerified" := "email_verified",
    "fullname" := "full_name",
    "sex" := "gender",
    "pictureURL" := "picture_url"
  ]

  /**
   * The switch in the patch loop: a listed property gets its column name,
   * every other property keeps its own name. The result is never one of the
   * renamed-away names.
   */
  function Rename(key: string): (column: string)
    ensures key in RenameTable ==> column == RenameTable[key]
    ensures key !in RenameTable ==> column == key
    ensures column !in RenameTable
  {
    match key
    case "id" => "identifier"
    case "lastname" => "last_name"
    case "firstname" => "first_name"
    case "birthday" => "birth_date"
    case "emailVerified" => "email_verified"
    case "fullname" => "full_name"
    case "sex" => "gender"
    case "pictureURL" => "picture_url"
    case _ => key
  }

  /** The patch built from the first `|identity|` properties: a later write to a column wins. */
  function Patch(identity: Identity): Fields
    decreases |identity|
  {
    if identity == [] then map[]
    else
      var last := identity[|identity| - 1];
      Patch(identity[..|identity| - 1])[Rename(last.0) := last.1]
  }

  /** `$identity->$name`: the value of the named property, null when there is none. */
  function Property(identity: Identity, name: string): Value
    decreases |identity|
  {
    if identity == [] then Null
    else if identity[|identity| - 1].0 == name then identity[|identity| - 1].1
    else Property(identity[..|identity| - 1], name)
  }

  /**
   * The loop of the patch step: walks the identity's properties in order and
   * writes each value under its renamed column.
   */
  method BuildPatch(identity: Identity) returns (data: Fields)
    ensures data == Patch(identity)
    ensures forall column :: column in data ==> column !in RenameTable
    ensures forall i :: 0 <= i < |identity| ==> Rename(identity[i].0) in data
  {
    data := map[];
    var i := 0;
    while i < |identity|
      invariant 0 <= i <= |identity|
      invariant data == Patch(identity[..i])
    {
      var (key, value) := identity[i];
      assert identity[..i + 1][..i] == identity[..i];
      data := data[Rename(key) := value];
      i := i + 1;
    }
    assert identity[..i] == identity;
    PatchColumns(identity);
  }

  /**
   * The patch holds exactly the renamed columns of the identity's properties,
   * and so never a renamed-away name such as `id`, `firstname` or `sex`.
   */
  lemma {:induction false} PatchColumns(identity: Identity)
    ensures forall column :: column in Patch(identity) <==>
      exists i :: 0 <= i < |identity| && Rename(identity[i].0) == column
    ensures forall column :: column in Patch(identity) ==> column !in RenameTable
  {
    if identity != [] {
      var init := identity[..|identity| - 1];
      PatchColumns(init);
      forall column | column in Patch(identity)
        ensures exists i :: 0 <= i < |identity| && Rename(identity[i].0) == column
      {
        if column != Rename(identity[|identity| - 1].0) {
          assert column in Patch(init);
          var i :| 0 <= i < |init| && Rename(init[i].0) == column;
          assert identity[i] == init[i];
        }
      }
      forall column | exists i :: 0 <= i < |identity| && Rename(identity[i].0) == column
        ensures column in Patch(identity)
      {
        var i :| 0 <= i < |identity| && Rename(identity[i].0) == column;
        if i < |init| {
          assert init[i] == identity[i];
        }
      }
    }
  }

  /**
   * Each property's value lands under its renamed column, unless a later
   * property is written to the same column.
   */
  lemma {:induction false} PatchValue(identity: Identity, i: nat)
    requires i < |identity|
    requires forall j :: i < j < |identity| ==> Rename(identity[j].0) != Rename(identity[i].0)
    ensures Rename(identity[i].0) in Patch(identity)
    ensures Patch(identity)[Rename(identity[i].0)] == identity[i].1
  {
    if i < |identity| - 1 {
      var init := identity[..|identity| - 1];
      assert init[i] == identity[i];
      forall j | i < j < |init|
        ensures Rename(init[j].0) != Rename(init[i].0)
      {
        assert init[j] == identity[j];
      }
      PatchValue(init, i);
    }
  }

  /** With distinct property names, a property is read back from its own value. */
  lemma {:induction false} PropertyOfDistinct(identity: Identity, i: nat)
    requires i < |identity|
    requires forall j :: 0 <= j < |identity| && j != i ==> identity[j].0 != identity[i].0
    ensures Property(identity, identity[i].0) == identity[i].1
  {
    if i < |identity| - 1 {
      var init := identity[..|identity| - 1];
      assert init[i] == identity[i];
      forall j | 0 <= j < |init| && j != i
        ensures init[j].0 != init[i].0
      {
        assert init[j] == identity[j];
      }
      PropertyOfDistinct(init, i);
    }
  }

  /** The worked example: `id`, `firstname` and `sex` become `identifier`, `first_name` and `gender`. */
  lemma PatchExample()
    ensures Patch([("id", Int(42)), ("firstname", Str("Ann")), ("sex", Str("f"))])
         == map["identifier" := Int(42), "first_name" := Str("Ann"), "gender" := Str("f")]
  {
    var identity := [("id", Int(42)), ("firstname", Str("Ann")), ("sex", Str("f"))];
    assert identity[..2][..1] == [("id", Int(42))];
    assert identity[..2] == [("id", Int(42)), ("firstname", Str("Ann"))];
    assert identity[..1] == [("id", Int(42))];
    assert [("id", Int(42))][..0] == [];
  }
}
