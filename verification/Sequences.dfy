/** Two notions about sequences that several components share. */
module Sequences {

  ghost predicate Distinct<T>(s: seq<T>) {
    forall i, j :: 0 <= i < j < |s| ==> s[i] != s[j]
  }

  function Without<T>(s: seq<T>, i: nat): seq<T>
    requires i < |s|
  {
    s[..i] + s[i + 1..]
  }

  lemma WithoutMultiset<T>(s: seq<T>, i: nat)
    requires i < |s|
    ensures multiset(Without(s, i)) == multiset(s) - multiset{s[i]}
  {
    assert s == s[..i] + [s[i]] + s[i + 1..];
  }

  lemma WithoutMembers<T>(s: seq<T>, i: nat, t: T)
    requires i < |s|
    ensures t in Without(s, i) <==> exists j :: 0 <= j < |s| && j != i && s[j] == t
  {
    var rest := Without(s, i);
    if t in rest {
      var k :| 0 <= k < |rest| && rest[k] == t;
      assert s[if k < i then k else k + 1] == t;
    }
    if j :| 0 <= j < |s| && j != i && s[j] == t {
      assert rest[if j < i then j else j - 1] == t;
    }
  }
}
