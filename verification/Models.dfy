/** The loop that guards the local ids of a record (domain/models.py). */
module Models {

  /** The value stands at two places of the list. */
  ghost predicate Repeated(values: seq<string>, v: string) {
    exists i, j :: 0 <= i < j < |values| && values[i] == v && values[j] == v
  }

  /** `_ensure_unique`: the ids it complains about are exactly the repeated ones. */
  method EnsureUnique(values: seq<string>) returns (duplicates: set<string>)
    ensures forall v :: v in duplicates <==> Repeated(values, v)
  {
    var seen: set<string> := {};
    duplicates := {};
    for i := 0 to |values|
      invariant forall v :: v in seen <==> v in values[..i]
      invariant forall v :: v in duplicates <==> exists j, k :: 0 <= j < k < i && values[j] == v && values[k] == v
    {
      if values[i] in seen {
        duplicates := duplicates + {values[i]};
      }
      seen := seen + {values[i]};
    }
  }
}
