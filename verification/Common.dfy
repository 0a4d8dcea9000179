/** Small datatypes shared by every component of the model. */
module Common {
  datatype Option<+T> = None | Some(value: T)

  datatype Result<+T, +E> = Ok(value: T) | Err(error: E)

  function Elements<T>(s: seq<T>): set<T> {
    set x | x in s
  }

  lemma ElementsAppend<T>(s: seq<T>, x: T)
    ensures Elements(s + [x]) == Elements(s) + {x}
  {
  }

  lemma {:induction false} DistinctCount<T>(s: seq<T>)
    requires forall i, j | 0 <= i < j < |s| :: s[i] != s[j]
    ensures |Elements(s)| == |s|
  {
    if s != [] {
      var init := s[..|s| - 1];
      DistinctCount(init);
      assert s == init + [s[|s| - 1]];
      assert Elements(s) == Elements(init) + {s[|s| - 1]};
    }
  }

  /** Two tables agree on one entry. */
  ghost predicate Same<K, V>(a: map<K, V>, b: map<K, V>, id: K) {
    (id in a <==> id in b) && (id in a ==> a[id] == b[id])
  }

  lemma SameEverywhere<K, V>(m: map<K, V>, b: map<K, V>)
    requires forall id :: Same(m, b, id)
    ensures m == b
  {
    forall id ensures id in m <==> id in b {
      assert Same(m, b, id);
    }
    forall id | id in m ensures m[id] == b[id] {
      assert Same(m, b, id);
    }
  }
}
