/** The list of interests that edge routers and routers keep for a consumer, beside the subject tables. An Unsubscribe
    swaps the first case-insensitive match with the last entry and shortens the list. `fold` stands for case folding:
    two subjects match when they fold to the same string. */
module Interests {

  function FirstMatch(interests: seq<string>, subject: string, fold: string -> string): (i: nat)
    ensures i <= |interests|
    ensures forall k :: 0 <= k < i ==> fold(interests[k]) != fold(subject)
    ensures i < |interests| ==> fold(interests[i]) == fold(subject)
  {
    if interests == [] || fold(interests[0]) == fold(subject) then 0
    else 1 + FirstMatch(interests[1..], subject, fold)
  }

  function WithoutFirst(interests: seq<string>, subject: string, fold: string -> string): seq<string> {
    var i, n := FirstMatch(interests, subject, fold), |interests|;
    if i == n then interests else interests[i := interests[n - 1]][..n - 1]
  }

  /** Exactly the first match goes; the rest stay, as a multiset. */
  lemma RemovesFirstMatch(interests: seq<string>, subject: string, fold: string -> string)
    ensures
      var i, rest := FirstMatch(interests, subject, fold), WithoutFirst(interests, subject, fold);
      if i == |interests| then
        rest == interests && forall x :: x in interests ==> fold(x) != fold(subject)
      else
        multiset(rest) + multiset{interests[i]} == multiset(interests)
  {
    var i, n := FirstMatch(interests, subject, fold), |interests|;
    if i < n {
      var swapped := interests[i := interests[n - 1]];
      assert swapped == swapped[..n - 1] + [interests[n - 1]];
      assert multiset(swapped) == multiset(interests) - multiset{interests[i]} + multiset{interests[n - 1]};
    }
  }

  // ---- membership in the tables against the list ----

  /** The subjects whose table entry has the consumer, and its list of interests. */
  datatype Membership = Membership(subscribed: set<string>, interests: seq<string>)

  datatype Change = Joins(subject: string) | Quits(subject: string)

  function Next(m: Membership, c: Change, fold: string -> string): Membership {
    match c
    case Joins(s) => Membership(m.subscribed + {s}, m.interests + [s])
    case Quits(s) => Membership(m.subscribed - {s}, WithoutFirst(m.interests, s, fold))
  }

  function After(changes: seq<Change>, fold: string -> string): Membership {
    if changes == [] then Membership({}, [])
    else Next(After(changes[..|changes| - 1], fold), changes[|changes| - 1], fold)
  }

  /** The tables mention the consumer only for subjects on its list. */
  ghost predicate Listed(m: Membership) {
    forall s :: s in m.subscribed ==> s in m.interests
  }

  /** Exactly when an Unsubscribe breaks the agreement: it removes the last mention of another subject, one that
      differs only by case and that the tables still have. */
  lemma QuitBreaksExactly(m: Membership, subject: string, fold: string -> string)
    requires Listed(m)
    ensures
      var i := FirstMatch(m.interests, subject, fold);
      !Listed(Next(m, Quits(subject), fold)) <==>
        && i < |m.interests| && m.interests[i] != subject && m.interests[i] in m.subscribed
        && multiset(m.interests)[m.interests[i]] == 1
  {
    var i, rest := FirstMatch(m.interests, subject, fold), WithoutFirst(m.interests, subject, fold);
    RemovesFirstMatch(m.interests, subject, fold);
    if i < |m.interests| {
      var x := m.interests[i];
      forall s ensures s in rest <==> multiset(m.interests)[s] - (if s == x then 1 else 0) > 0 {
        assert s in rest <==> multiset(rest)[s] > 0;
        assert s in m.interests <==> multiset(m.interests)[s] > 0;
      }
    }
  }

  /** No two of the subjects differ by case only. */
  ghost predicate CasesApart(changes: seq<Change>, fold: string -> string) {
    forall i, j :: 0 <= i < |changes| && 0 <= j < |changes| && fold(changes[i].subject) == fold(changes[j].subject) ==>
      changes[i].subject == changes[j].subject
  }

  /** Over all runs, membership in the tables implies a place on the list, as long as no two subjects in use differ
      by case only. */
  lemma {:induction false} ListedAlways(changes: seq<Change>, fold: string -> string)
    requires CasesApart(changes, fold)
    ensures Listed(After(changes, fold))
    ensures forall s :: s in After(changes, fold).interests ==>
      exists i :: 0 <= i < |changes| && changes[i].subject == s
  {
    if changes != [] {
      var n := |changes| - 1;
      var before, c := After(changes[..n], fold), changes[n];
      ListedAlways(changes[..n], fold);
      forall s | s in before.interests ensures exists i :: 0 <= i < |changes| && changes[i].subject == s {
        var i :| 0 <= i < n && changes[..n][i].subject == s;
        assert changes[i].subject == s;
      }
      if c.Quits? {
        QuitBreaksExactly(before, c.subject, fold);
        RemovesFirstMatch(before.interests, c.subject, fold);
        var i := FirstMatch(before.interests, c.subject, fold);
        if i < |before.interests| {
          assert before.interests[i] in before.interests;
          var j :| 0 <= j < |changes| && changes[j].subject == before.interests[i];
        }
        var rest := After(changes, fold).interests;
        forall s | s in rest ensures s in before.interests {
          assert multiset(rest)[s] > 0;
        }
      } else {
        assert changes[n].subject == c.subject;
      }
    }
  }

  /** Two subjects that differ by case only break it: leaving one takes the other off the list. */
  lemma CaseClash()
    ensures
      var fold := (s: string) => if s == "AIS" then "ais" else s;
      !Listed(After([Joins("AIS"), Joins("ais"), Quits("ais")], fold))
  {
    var fold := (s: string) => if s == "AIS" then "ais" else s;
    var c := [Joins("AIS"), Joins("ais"), Quits("ais")];
    assert c[..2] == [Joins("AIS"), Joins("ais")];
    assert c[..2][..1] == [Joins("AIS")] && c[..2][..1][..0] == [];
    assert After(c[..2][..1], fold) == Membership({"AIS"}, ["AIS"]);
    assert After(c[..2], fold) == Membership({"AIS", "ais"}, ["AIS", "ais"]);
    assert FirstMatch(["AIS", "ais"], "ais", fold) == 0;
    assert WithoutFirst(["AIS", "ais"], "ais", fold) == ["ais"];
    assert "AIS" in After(c, fold).subscribed;
  }
}
