/** `del_none` of src/structdbrest/query.py: the keys whose value is None
    are deleted from a dictionary and, recursively, from every dictionary
    it holds as a value. Lists are not entered. */
module NoneRemoval {
  import opened DataClasses

  /** The dictionary `del_none` leaves behind. */
  function Pruned(d: map<string, Value>): map<string, Value>
    decreases Dict(d), 1
  {
    map k | k in d && d[k] != Null :: PrunedEntry(d[k])
  }

  /** What becomes of a value that is kept: a dictionary is pruned in turn,
      anything else is left as it is. */
  function PrunedEntry(v: Value): Value
    decreases v, 2
  {
    if v.Dict? then Dict(Pruned(v.entries)) else v
  }

  /** No key at any level of nested dictionaries maps to None. */
  predicate NoNoneAnywhere(d: map<string, Value>)
    decreases Dict(d)
  {
    forall k :: k in d ==> d[k] != Null && (d[k].Dict? ==> NoNoneAnywhere(d[k].entries))
  }

  /** `del_none` on the value side: it walks a snapshot of the keys,
      deletes the None ones and recurses into dictionary values. */
  method DelNone(d: map<string, Value>) returns (r: map<string, Value>)
    ensures r == Pruned(d)
    decreases Dict(d)
  {
    r := d;
    var todo := d.Keys;
    while todo != {}
      invariant todo <= d.Keys
      invariant r.Keys == (set k | k in d && (k in todo || d[k] != Null))
      invariant forall k :: k in r ==> r[k] == if k in todo then d[k] else PrunedEntry(d[k])
      decreases todo
    {
      var k :| k in todo;
      var v := d[k];
      if v == Null {
        r := r - {k};
      } else if v.Dict? {
        var inner := DelNone(v.entries);
        r := r[k := Dict(inner)];
      }
      todo := todo - {k};
    }
  }

  /** The keys that survive are exactly the keys whose value was not None. */
  lemma PrunedKeys(d: map<string, Value>)
    ensures Pruned(d).Keys == set k | k in d && d[k] != Null
    ensures forall k :: k in d && d[k] != Null && !d[k].Dict? ==> Pruned(d)[k] == d[k]
  {
  }

  /** After `del_none` no None is left at any nesting level. */
  lemma {:induction false} PrunedHasNoNone(d: map<string, Value>)
    ensures NoNoneAnywhere(Pruned(d))
    decreases Dict(d)
  {
    var p := Pruned(d);
    forall k | k in p
      ensures p[k] != Null && (p[k].Dict? ==> NoNoneAnywhere(p[k].entries))
    {
      assert k in d && d[k] != Null && p[k] == PrunedEntry(d[k]);
      if d[k].Dict? {
        PrunedHasNoNone(d[k].entries);
      }
    }
  }

  /** A dictionary without None anywhere is left as it is, and only such a
      dictionary is: `del_none` changes exactly the dictionaries that hold a
      None somewhere. */
  lemma {:induction false} PrunedFixpoint(d: map<string, Value>)
    ensures Pruned(d) == d <==> NoNoneAnywhere(d)
    decreases Dict(d)
  {
    if NoNoneAnywhere(d) {
      forall k | k in d
        ensures PrunedEntry(d[k]) == d[k]
      {
        if d[k].Dict? {
          PrunedFixpoint(d[k].entries);
        }
      }
      assert Pruned(d) == d;
    } else {
      PrunedHasNoNone(d);
    }
  }

  /** Running `del_none` twice deletes nothing more. */
  lemma PrunedIdempotent(d: map<string, Value>)
    ensures Pruned(Pruned(d)) == Pruned(d)
  {
    PrunedHasNoNone(d);
    PrunedFixpoint(Pruned(d));
  }
}
