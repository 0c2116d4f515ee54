/**
 * The profile.json update: the file's JSON document gets its
 * "active_profile" member set to the profile name. Documents are held
 * parsed; their text form is not modelled.
 */
module ProfileJson {
  import opened Wrappers

  /** A parsed JSON value. Numbers keep their literal text. */
  datatype Json =
    | Null
    | Bool(b: bool)
    | Number(literal: string)
    | Str(s: string)
    | Array(items: seq<Json>)
    | Object(members: map<string, Json>)

  const ActiveProfileKey := "active_profile"

  /** `json_data['active_profile'] = profile`. Item assignment succeeds only
      on an object; on any other document Python raises TypeError, which
      the model reports as None. */
  function SetActiveProfile(doc: Json, profile: string): (updated: Option<Json>)
    ensures updated.Some? <==> doc.Object?
    ensures updated.Some? ==> updated.value.Object?
    ensures updated.Some? ==> updated.value.members.Keys == doc.members.Keys + {ActiveProfileKey}
    ensures updated.Some? ==> updated.value.members[ActiveProfileKey] == Str(profile)
    ensures updated.Some? ==> forall k :: k in doc.members && k != ActiveProfileKey ==>
              updated.value.members[k] == doc.members[k]
  {
    match doc
    case Object(members) => Some(Object(members[ActiveProfileKey := Str(profile)]))
    case _ => None
  }

  /** The profile a document names as active, if it names one. */
  function ActiveProfile(doc: Json): (profile: Option<string>)
  {
    if doc.Object? && ActiveProfileKey in doc.members && doc.members[ActiveProfileKey].Str? then
      Some(doc.members[ActiveProfileKey].s)
    else None
  }

  /** Reading the active profile back gives the profile just written, and a
      document that already names the profile as active is left exactly as
      it was. */
  lemma SetActiveProfileReadBack(doc: Json, profile: string)
    requires doc.Object?
    ensures ActiveProfile(SetActiveProfile(doc, profile).value) == Some(profile)
    ensures SetActiveProfile(doc, profile) == Some(doc) <==> ActiveProfile(doc) == Some(profile)
  {
    if ActiveProfile(doc) == Some(profile) {
      assert doc.members[ActiveProfileKey := Str(profile)] == doc.members;
    }
  }

  /** Setting the same profile twice gives what setting it once gives. */
  lemma SetActiveProfileIdempotent(doc: Json, profile: string)
    requires doc.Object?
    ensures SetActiveProfile(SetActiveProfile(doc, profile).value, profile) == SetActiveProfile(doc, profile)
  {
    SetActiveProfileReadBack(SetActiveProfile(doc, profile).value, profile);
  }
}
