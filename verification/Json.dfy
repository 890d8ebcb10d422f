/** JSON documents and the merge of section 2 of RFC 7396. */
module Json {

  /** The member names the controller uses, and every other name. */
  datatype Key =
    | Version | Document | Reported | LifecycleKey | VerifiedAt | LastError | ControllerKey | ActivationKey | RunKey
    | Endpoint | Runtime | UnverifiedSince | StopRequestedAt | ProjectionVersion
    | SourceTimestampMs | InactiveObservedAt
    | ObservedFlag | ActiveFlag | Id | StartedAt | Deadline | Release | RunActivationId
    | LaunchRequest | RunPhase | MicrovmId
    | OtherKey(name: string)

  type Fields = map<Key, Json>

  /** A JSON value; `JNum` is a number that is not an integer. */
  datatype Json =
    | JNull
    | JBool(b: bool)
    | JInt(n: int)
    | JNum(digits: string)
    | JStr(s: string)
    | JArr(items: seq<Json>)
    | JObj(fields: Fields)

  function FieldsOf(j: Json): Fields { if j.JObj? then j.fields else map[] }

  function Member(m: Fields, k: Key): Json { if k in m then m[k] else JNull }

  // ---------------------------------------------------------------- section 2 of RFC 7396

  /** The merge-patch algorithm of section 2 of RFC 7396. */
  function MergePatch(target: Json, patch: Json): Json
    decreases patch
  {
    if !patch.JObj? then patch
    else
      var base := FieldsOf(target);
      JObj(map k | k in base.Keys + patch.fields.Keys && (k in patch.fields ==> patch.fields[k] != JNull) ::
             if k in patch.fields then MergePatch(Member(base, k), patch.fields[k]) else base[k])
  }

  /** A target that is not an object counts as an empty one. */
  lemma IgnoresNonRecord(target: Json, patch: Json)
    requires !target.JObj?
    ensures MergePatch(target, patch) == MergePatch(JNull, patch)
  {
  }

  /** Repeating an update changes nothing, so a retried save is harmless. */
  lemma {:induction false} MergeIdempotent(target: Json, patch: Json)
    ensures MergePatch(MergePatch(target, patch), patch) == MergePatch(target, patch)
    decreases patch
  {
    if patch.JObj? {
      var once := MergePatch(target, patch);
      forall k | k in patch.fields && patch.fields[k] != JNull
        ensures MergePatch(Member(once.fields, k), patch.fields[k]) == once.fields[k]
      {
        MergeIdempotent(Member(FieldsOf(target), k), patch.fields[k]);
      }
      assert MergePatch(once, patch).fields == once.fields;
    }
  }

  /** What a merge leaves under each name. */
  lemma MergedMember(target: Json, patch: Fields, k: Key)
    ensures var m := MergePatch(target, JObj(patch)).fields;
            && (k in patch && patch[k] == JNull ==> k !in m)
            && (k in patch && patch[k] != JNull ==> k in m && m[k] == MergePatch(Member(FieldsOf(target), k), patch[k]))
            && (k !in patch ==> (k in m <==> k in FieldsOf(target)) && (k in m ==> m[k] == FieldsOf(target)[k]))
  {
  }
}
