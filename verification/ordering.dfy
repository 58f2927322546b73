/** What `ORDER BY sort_order ASC, id ASC` answers. */
module Ordering {
  import opened Text

  datatype SortKey = SortKey(position: int, id: string)

  predicate KeyLess(a: SortKey, b: SortKey) {
    a.position < b.position || (a.position == b.position && StrLess(a.id, b.id))
  }

  /** `rows` is an answer to a query selecting `selected`, sorted by `key`:
      every selected row once, no row before one with a smaller key. */
  ghost predicate OrderedBy<T(!new)>(rows: seq<T>, selected: set<T>, key: T -> SortKey) {
    && multiset(rows) == multiset(selected)
    && forall i, j :: 0 <= i < j < |rows| ==> !KeyLess(key(rows[j]), key(rows[i]))
  }

  ghost predicate StrictlySorted<T(!new)>(rows: seq<T>, key: T -> SortKey) {
    forall i, j :: 0 <= i < j < |rows| ==> KeyLess(key(rows[i]), key(rows[j]))
  }

  ghost predicate Exactly<T(!new)>(rows: seq<T>, selected: set<T>) {
    forall x :: x in rows <==> x in selected
  }

  ghost predicate DistinctKeys<T(!new)>(selected: set<T>, key: T -> SortKey) {
    forall x, y :: x in selected && y in selected && key(x) == key(y) ==> x == y
  }

  lemma KeyLessOrder(a: SortKey, b: SortKey)
    ensures a == b || KeyLess(a, b) || KeyLess(b, a)
    ensures !(KeyLess(a, b) && KeyLess(b, a)) && !KeyLess(a, a)
  {
    StrLessTotal(a.id, b.id);
  }

  lemma KeyLessTransitive(a: SortKey, b: SortKey, c: SortKey)
    requires KeyLess(a, b) && KeyLess(b, c)
    ensures KeyLess(a, c)
  {
    if a.position == b.position == c.position {
      StrLessTransitive(a.id, b.id, c.id);
    }
  }

  lemma MembersOfAnswer<T(!new)>(rows: seq<T>, selected: set<T>, key: T -> SortKey)
    requires OrderedBy(rows, selected, key)
    ensures Exactly(rows, selected)
  {
    forall x ensures x in rows <==> x in selected {
      assert x in rows <==> x in multiset(rows);
    }
  }

  lemma CountedTwice<T>(rows: seq<T>, i: nat, j: nat)
    requires i < j < |rows| && rows[i] == rows[j]
    ensures multiset(rows)[rows[i]] >= 2
  {
    assert rows == rows[..i] + [rows[i]] + rows[i + 1..j] + [rows[j]] + rows[j + 1..];
  }

  /** When no two selected rows share a key, the answer is strictly sorted. */
  lemma AnswerIsStrict<T(!new)>(rows: seq<T>, selected: set<T>, key: T -> SortKey)
    requires OrderedBy(rows, selected, key) && DistinctKeys(selected, key)
    ensures StrictlySorted(rows, key) && Exactly(rows, selected)
  {
    MembersOfAnswer(rows, selected, key);
    forall i, j | 0 <= i < j < |rows|
      ensures KeyLess(key(rows[i]), key(rows[j]))
    {
      KeyLessOrder(key(rows[i]), key(rows[j]));
      if rows[i] == rows[j] {
        CountedTwice(rows, i, j);
        assert false;
      }
    }
  }

  /** Two strictly sorted lists of the same rows are the same list. */
  lemma {:induction false} SortedListsAgree<T(!new)>(a: seq<T>, b: seq<T>, key: T -> SortKey)
    requires StrictlySorted(a, key) && StrictlySorted(b, key)
    requires forall x :: x in a <==> x in b
    ensures a == b
  {
    assert a == [] <==> b == [] by {
      assert a != [] ==> a[0] in a;
      assert b != [] ==> b[0] in b;
    }
    if a != [] {
      if a[0] != b[0] {
        assert a[0] in b && b[0] in a;
        var i :| 0 <= i < |b| && b[i] == a[0];
        var j :| 0 <= j < |a| && a[j] == b[0];
        KeyLessOrder(key(a[0]), key(b[0]));
        assert false;
      }
      Distinct(a, key);
      Distinct(b, key);
      forall x ensures x in a[1..] <==> x in b[1..] {
        assert x in a <==> x == a[0] || x in a[1..];
        assert x in b <==> x == b[0] || x in b[1..];
      }
      SortedListsAgree(a[1..], b[1..], key);
      assert a == [a[0]] + a[1..] && b == [b[0]] + b[1..];
    }
  }

  lemma Distinct<T(!new)>(rows: seq<T>, key: T -> SortKey)
    requires StrictlySorted(rows, key) && rows != []
    ensures rows[0] !in rows[1..]
  {
    forall i | 1 <= i < |rows| ensures rows[i] != rows[0] {
      KeyLessOrder(key(rows[0]), key(rows[i]));
    }
  }

  /** Every finite selection has an answer, so assuming one assumes nothing. */
  lemma {:induction false} AnswerExists<T(!new)>(selected: set<T>, key: T -> SortKey) returns (rows: seq<T>)
    ensures OrderedBy(rows, selected, key)
    decreases |selected|
  {
    if selected == {} {
      rows := [];
    } else {
      var first := Least(selected, key);
      var rest := AnswerExists(selected - {first}, key);
      MembersOfAnswer(rest, selected - {first}, key);
      rows := [first] + rest;
      forall i, j | 0 <= i < j < |rows| ensures !KeyLess(key(rows[j]), key(rows[i])) {
        assert rows[j] in rest;
      }
      assert multiset(selected) == multiset{first} + multiset(selected - {first});
    }
  }

  lemma {:induction false} Least<T(!new)>(selected: set<T>, key: T -> SortKey) returns (m: T)
    requires selected != {}
    ensures m in selected && forall x :: x in selected ==> !KeyLess(key(x), key(m))
    decreases |selected|
  {
    m :| m in selected;
    KeyLessOrder(key(m), key(m));
    if selected != {m} {
      var n := Least(selected - {m}, key);
      KeyLessOrder(key(m), key(n));
      if KeyLess(key(n), key(m)) {
        m := n;
      } else {
        forall x | x in selected ensures !KeyLess(key(x), key(m)) {
          if x != m && KeyLess(key(x), key(m)) && KeyLess(key(m), key(n)) {
            KeyLessTransitive(key(x), key(m), key(n));
          }
        }
      }
    }
  }
}
