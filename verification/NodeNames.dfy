/** Node names within one subscription response: distinct, and changed only when already taken. */
module NodeNames {
  import opened Decimals

  function Itoa(n: int): string {
    if n < 0 then "-" + Decimal(-n) else Decimal(n)
  }

  // ---------------------------------------------------------------- one name

  datatype Request = Request(name: string, tag: string, id: int, separator: string)

  // A taken name is told apart by the inbound's tag, or by its id when it has none.
  function Base(q: Request): string {
    q.name + q.separator + if q.tag != "" then q.tag else "#" + Itoa(q.id)
  }

  // The candidates in the order they are tried: the base, then the base with 2, 3, ...
  function Candidate(q: Request, i: nat): string
    requires i >= 1
  {
    if i == 1 then Base(q) else Base(q) + q.separator + Decimal(i)
  }

  lemma CandidatesDiffer(q: Request, i: nat, j: nat)
    requires 1 <= i < j
    ensures Candidate(q, i) != Candidate(q, j)
  {
    if i > 1 && Candidate(q, i) == Candidate(q, j) {
      var p := Base(q) + q.separator;
      assert Candidate(q, i)[|p|..] == Decimal(i) && Candidate(q, j)[|p|..] == Decimal(j);
      DecimalInjective(i, j);
    }
  }

  // So the first taken name "n" of an inbound tagged "t" becomes "n-t" and the next "n-t-2", if a dash separates.
  lemma CandidatesRead(tag: string, id: nat)
    requires tag != ""
    ensures Candidate(Request("n", tag, id, "-"), 1) == "n-" + tag
    ensures Candidate(Request("n", tag, id, "-"), 2) == "n-" + tag + "-2"
    ensures Candidate(Request("n", "", id, "-"), 1) == "n-#" + Decimal(id)
  {
    assert Decimal(2) == "2";
    assert "n" + "-" + tag == "n-" + tag && ("n" + "-" + tag) + "-" + "2" == "n-" + tag + "-2";
    assert "n" + "-" + ("#" + Decimal(id)) == "n-#" + Decimal(id);
  }

  // The name handed out: as asked if it is free or empty, else the first free candidate.
  ghost predicate Answer(taken: set<string>, q: Request, r: string) {
    if q.name == "" || q.name !in taken then r == q.name
    else exists i: nat :: i >= 1 && r == Candidate(q, i) && r !in taken && forall j: nat | 1 <= j < i ::
      Candidate(q, j) in taken
  }

  function Taken(taken: set<string>, r: string): set<string> {
    if r == "" then taken else taken + {r}
  }

  class Scope {
    var names: set<string>

    constructor ()
      ensures names == {}
    {
      names := {};
    }

    method UniqueName(q: Request) returns (r: string)
      modifies this
      ensures Answer(old(names), q, r) && names == Taken(old(names), r)
    {
      if q.name == "" { return q.name; }
      if q.name !in names {
        names := names + {q.name};
        return q.name;
      }
      r := Base(q);
      var i := 2;
      // Each round uses up a taken name no later candidate can equal, so the rounds run out before the names do.
      ghost var untried := names;
      while r in names
        invariant i >= 2 && r == Candidate(q, i - 1) && untried <= names == old(names)
        invariant forall j: nat | 1 <= j < i - 1 :: Candidate(q, j) in names
        invariant forall x | x in names && x !in untried :: exists j: nat :: 1 <= j < i - 1 && x == Candidate(q, j)
        decreases |untried|
      {
        forall j: nat | 1 <= j < i - 1 ensures Candidate(q, j) != r { CandidatesDiffer(q, j, i - 1); }
        assert r in untried;
        untried := untried - {r};
        r := Base(q) + q.separator + Itoa(i);
        i := i + 1;
      }
      assert r == Candidate(q, i - 1);
      assert r != "" by { assert |r| >= |q.name|; }
      names := names + {r};
    }
  }

  // ---------------------------------------------------------------- a whole response

  // No non-empty name is handed out twice, and whoever asks first for a name gets it as it is.
  method NameAll(requests: seq<Request>) returns (names: seq<string>)
    ensures |names| == |requests|
    ensures forall i, j | 0 <= i < j < |names| && names[i] != "" :: names[i] != names[j]
    ensures forall i | 0 <= i < |names| :: requests[i].name !in names[..i] || requests[i].name == "" ==>
      names[i] == requests[i].name
    ensures forall i | 0 <= i < |names| :: names[i] == "" <==> requests[i].name == ""
  {
    var scope := new Scope();
    names := [];
    for k := 0 to |requests|
      invariant |names| == k && fresh(scope)
      invariant forall x :: x in scope.names <==> x in names && x != ""
      invariant forall i, j | 0 <= i < j < k && names[i] != "" :: names[i] != names[j]
      invariant forall i | 0 <= i < k :: requests[i].name !in names[..i] || requests[i].name == "" ==>
        names[i] == requests[i].name
      invariant forall i | 0 <= i < k :: names[i] == "" <==> requests[i].name == ""
    {
      var r := scope.UniqueName(requests[k]);
      ghost var before := names;
      names := names + [r];
      assert forall i | 0 <= i <= k :: names[..i] == before[..i];
      assert r != "" ==> r !in before;
    }
  }
}
