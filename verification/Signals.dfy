/**
 The four signals a resting node is woken by and the watermarks that retire them.
 */
module Signals {

  // ---------- string order, sorting and joining ----------

  /** The code-point order of strings. */
  predicate Less(a: string, b: string)
  {
    if b == [] then false
    else if a == [] then true
    else a[0] < b[0] || (a[0] == b[0] && Less(a[1..], b[1..]))
  }

  function Max(a: string, b: string): string
  {
    if Less(a, b) then b else a
  }

  lemma {:induction false} LessIrreflexive(a: string)
    ensures !Less(a, a)
  {
    if a != [] {
      LessIrreflexive(a[1..]);
    }
  }

  lemma {:induction false} LessTransitive(a: string, b: string, c: string)
    requires Less(a, b) && Less(b, c)
    ensures Less(a, c)
    decreases |a|
  {
    if a != [] && a[0] == b[0] && b[0] == c[0] {
      LessTransitive(a[1..], b[1..], c[1..]);
    }
  }

  lemma {:induction false} LessTotal(a: string, b: string)
    ensures Less(a, b) || a == b || Less(b, a)
    decreases |a|
  {
    if a != [] && b != [] && a[0] == b[0] {
      LessTotal(a[1..], b[1..]);
      assert a == [a[0]] + a[1..] && b == [b[0]] + b[1..];
    }
  }

  lemma NotLessTransitive(a: string, b: string, c: string)
    requires !Less(b, a) && !Less(c, b)
    ensures !Less(c, a)
  {
    LessTotal(a, b);
    LessTotal(b, c);
    LessIrreflexive(a);
    if Less(c, a) {
      if a == b {
      } else {
        LessTransitive(c, a, b);
      }
    }
  }

  ghost predicate Sorted(names: seq<string>)
  {
    forall i, j :: 0 <= i < j < |names| ==> !Less(names[j], names[i])
  }

  function Insert(name: string, sorted: seq<string>): (r: seq<string>)
    ensures multiset(r) == multiset{name} + multiset(sorted)
  {
    if sorted == [] then [name]
    else if Less(sorted[0], name) then
      assert sorted == [sorted[0]] + sorted[1..];
      [sorted[0]] + Insert(name, sorted[1..])
    else [name] + sorted
  }

  function Sort(names: seq<string>): (r: seq<string>)
    ensures multiset(r) == multiset(names)
  {
    if names == [] then []
    else
      assert names == [names[0]] + names[1..];
      Insert(names[0], Sort(names[1..]))
  }

  lemma {:induction false} InsertSorted(name: string, sorted: seq<string>)
    requires Sorted(sorted)
    ensures Sorted(Insert(name, sorted))
  {
    if sorted == [] {
    } else if Less(sorted[0], name) {
      var rest := Insert(name, sorted[1..]);
      InsertSorted(name, sorted[1..]);
      forall k | 0 <= k < |rest| ensures !Less(rest[k], sorted[0]) {
        assert rest[k] in multiset(rest);
        if rest[k] == name {
          if Less(name, sorted[0]) {
            LessTransitive(name, sorted[0], name);
            LessIrreflexive(name);
          }
        } else {
          assert rest[k] in multiset(sorted[1..]);
          var m :| 0 <= m < |sorted[1..]| && sorted[1..][m] == rest[k];
          assert sorted[m + 1] == rest[k];
        }
      }
    } else {
      forall k | 0 <= k < |sorted| ensures !Less(sorted[k], name) {
        if k > 0 {
          NotLessTransitive(name, sorted[0], sorted[k]);
        }
      }
    }
  }

  lemma {:induction false} SortSorts(names: seq<string>)
    ensures Sorted(Sort(names))
  {
    if names != [] {
      SortSorts(names[1..]);
      InsertSorted(names[0], Sort(names[1..]));
    }
  }

  lemma FirstIsLeast(sorted: seq<string>, name: string)
    requires Sorted(sorted) && name in sorted
    ensures !Less(name, sorted[0])
  {
    LessIrreflexive(name);
  }

  lemma SameFirst(a: seq<string>, b: seq<string>)
    requires Sorted(a) && Sorted(b) && a != [] && b != []
    requires a[0] in b && b[0] in a
    ensures a[0] == b[0]
  {
    FirstIsLeast(b, a[0]);
    FirstIsLeast(a, b[0]);
    LessTotal(a[0], b[0]);
  }

  /** A sorted sequence is determined by its elements. */
  lemma {:induction false} SortedUnique(a: seq<string>, b: seq<string>)
    requires Sorted(a) && Sorted(b) && multiset(a) == multiset(b)
    ensures a == b
  {
    assert |multiset(a)| == |a| && |multiset(b)| == |b|;
    if a != [] {
      assert a[0] in multiset(b) && b[0] in multiset(a);
      SameFirst(a, b);
      assert a == [a[0]] + a[1..] && b == [b[0]] + b[1..];
      assert multiset(a[1..]) == multiset(b[1..]) by {
        assert multiset(a) == multiset{a[0]} + multiset(a[1..]);
        assert multiset(b) == multiset{b[0]} + multiset(b[1..]);
        assert multiset(a[1..]) == multiset(a) - multiset{a[0]};
        assert multiset(b[1..]) == multiset(b) - multiset{b[0]};
      }
      SortedUnique(a[1..], b[1..]);
    }
  }

  const SEPARATOR := '|'

  function Join(parts: seq<string>): string
    requires parts != []
  {
    if |parts| == 1 then parts[0] else parts[0] + [SEPARATOR] + Join(parts[1..])
  }

  predicate Separable(parts: seq<string>)
  {
    forall part :: part in parts ==> SEPARATOR !in part
  }

  lemma FirstPartUnique(a: string, x: string, b: string, y: string)
    requires SEPARATOR !in a && SEPARATOR !in b
    requires a + [SEPARATOR] + x == b + [SEPARATOR] + y
    ensures a == b && x == y
  {
    var left, right := a + [SEPARATOR] + x, b + [SEPARATOR] + y;
    assert left[|a|] == SEPARATOR && right[|b|] == SEPARATOR;
    assert forall k :: 0 <= k < |a| ==> left[k] == a[k];
    assert forall k :: 0 <= k < |b| ==> right[k] == b[k];
    assert a == left[..|a|] && b == right[..|b|];
    assert x == left[|a| + 1..] && y == right[|b| + 1..];
  }

  lemma SeparatorInJoin(parts: seq<string>)
    requires parts != [] && Separable(parts)
    ensures SEPARATOR in Join(parts) <==> |parts| > 1
  {
    if |parts| > 1 {
      assert Join(parts)[|parts[0]|] == SEPARATOR;
    }
  }

  lemma {:induction false} JoinInjective(a: seq<string>, b: seq<string>)
    requires a != [] && b != [] && Separable(a) && Separable(b) && Join(a) == Join(b)
    ensures a == b
  {
    SeparatorInJoin(a);
    SeparatorInJoin(b);
    if |a| > 1 {
      FirstPartUnique(a[0], Join(a[1..]), b[0], Join(b[1..]));
      JoinInjective(a[1..], b[1..]);
      assert a == [a[0]] + a[1..] && b == [b[0]] + b[1..];
    }
  }

  // ---------- readings ----------

  /** A comment or review; `id` stands for its kind and number. */
  datatype Artifact = Artifact(id: nat, author: string, isApproval: bool, createdAt: string, updatedAt: string)
  {
    function GetTimestamp(): string
    {
      Max(updatedAt, createdAt)
    }
  }

  /** One reading of an open pull request; `failures` are the names of the failing checks. */
  datatype Reading = Reading(
    headSha: string,
    isConflicted: bool,
    isApproved: bool,
    failures: seq<string>,
    artifacts: seq<Artifact>)

  datatype Signal = Comments | Checks | Conflict | Approval

  datatype SignalChange = SignalChange(signal: Signal, mark: string, wakesNode: bool, count: nat)

  // ---------- check signatures ----------

  /** The identity of a check failure: the commit joined with the sorted names, empty when nothing failed. */
  function CheckSignature(headSha: string, failures: seq<string>): string
  {
    if failures == [] then "" else Join([headSha] + Sort(failures))
  }

  lemma SignatureEmptyIffNothingFailed(headSha: string, failures: seq<string>)
    ensures CheckSignature(headSha, failures) == "" <==> failures == []
  {
    if failures != [] {
      assert |multiset(Sort(failures))| == |multiset(failures)| == |failures|;
    }
  }

  /** Signatures of failing readings agree exactly when the commit and the multiset of failing names agree. */
  lemma SignaturesAreCanonical(sha: string, names: seq<string>, sha': string, names': seq<string>)
    requires names != [] && names' != []
    requires SEPARATOR !in sha && SEPARATOR !in sha' && Separable(names) && Separable(names')
    ensures CheckSignature(sha, names) == CheckSignature(sha', names') <==>
            sha == sha' && multiset(names) == multiset(names')
  {
    var parts, parts' := [sha] + Sort(names), [sha'] + Sort(names');
    SortKeepsElements(names);
    SortKeepsElements(names');
    if CheckSignature(sha, names) == CheckSignature(sha', names') {
      JoinInjective(parts, parts');
      assert parts[0] == parts'[0] && parts[1..] == parts'[1..];
    }
    if multiset(names) == multiset(names') {
      SortSorts(names);
      SortSorts(names');
      SortedUnique(Sort(names), Sort(names'));
    }
  }

  lemma SortKeepsElements(names: seq<string>)
    ensures forall name :: name in Sort(names) <==> name in names
  {
    forall name ensures name in Sort(names) <==> name in names {
      assert name in Sort(names) <==> name in multiset(Sort(names));
      assert name in names <==> name in multiset(names);
    }
  }

  /** Without the restriction on `|` different failures share a signature, whatever the commit. */
  lemma SeparatorInNameCollides(sha: string, a: string, b: string)
    requires !Less(b, a)
    ensures CheckSignature(sha, [a + "|" + b]) == CheckSignature(sha, [a, b])
    ensures multiset([a + "|" + b]) != multiset([a, b])
  {
    SortOne(a + "|" + b);
    SortOne(b);
    assert [a, b][1..] == [b];
    assert Insert(a, [b]) == [a, b];
    JoinTwo(sha, a + "|" + b);
    JoinTwo(a, b);
    assert [sha] + [a, b] == [sha, a, b] && [sha, a, b][1..] == [a, b];
    assert Join([sha, a, b]) == sha + [SEPARATOR] + Join([a, b]);
    assert [sha] + [a + "|" + b] == [sha, a + "|" + b];
    assert |multiset([a + "|" + b])| == 1 && |multiset([a, b])| == 2;
  }

  lemma SortOne(name: string)
    ensures Sort([name]) == [name]
  {
    assert [name][1..] == [];
    assert Sort([]) == [];
  }

  lemma JoinTwo(a: string, b: string)
    ensures Join([a, b]) == a + "|" + b
  {
    assert [a, b][1..] == [b];
    assert Join([b]) == b;
  }

  // ---------- detection ----------

  /** A comment the comment signal may report: not the agent's own and no approval. */
  predicate IsFeedback(agentAccount: string, artifact: Artifact)
  {
    artifact.author != agentAccount && !artifact.isApproval
  }

  predicate IsFresh(agentAccount: string, mark: string, artifact: Artifact)
  {
    IsFeedback(agentAccount, artifact) && Less(mark, artifact.GetTimestamp())
  }

  function Fresh(agentAccount: string, mark: string, artifacts: seq<Artifact>): (r: seq<Artifact>)
    ensures forall a :: a in r <==> a in artifacts && IsFresh(agentAccount, mark, a)
  {
    if artifacts == [] then []
    else if IsFresh(agentAccount, mark, artifacts[0]) then
      [artifacts[0]] + Fresh(agentAccount, mark, artifacts[1..])
    else Fresh(agentAccount, mark, artifacts[1..])
  }

  function Newest(artifacts: seq<Artifact>): string
    requires artifacts != []
  {
    if |artifacts| == 1 then artifacts[0].GetTimestamp()
    else Max(artifacts[0].GetTimestamp(), Newest(artifacts[1..]))
  }

  lemma {:induction false} NewestIsMaximum(artifacts: seq<Artifact>)
    requires artifacts != []
    ensures exists a :: a in artifacts && a.GetTimestamp() == Newest(artifacts)
    ensures forall a :: a in artifacts ==> !Less(Newest(artifacts), a.GetTimestamp())
  {
    LessIrreflexive(artifacts[0].GetTimestamp());
    if |artifacts| > 1 {
      NewestIsMaximum(artifacts[1..]);
      var first, rest := artifacts[0].GetTimestamp(), Newest(artifacts[1..]);
      assert artifacts[0] in artifacts;
      var w :| w in artifacts[1..] && w.GetTimestamp() == rest;
      assert w in artifacts;
      forall a | a in artifacts ensures !Less(Newest(artifacts), a.GetTimestamp()) {
        if a in artifacts[1..] && !Less(first, rest) {
          NotLessTransitive(a.GetTimestamp(), rest, first);
        } else if a !in artifacts[1..] {
          assert a == artifacts[0];
          if Less(rest, first) && Less(first, rest) {
            LessTransitive(first, rest, first);
          }
        }
      }
    } else {
      assert artifacts[0] in artifacts;
    }
  }

  datatype Detection = Silent | Change(change: SignalChange)

  function Detect(signal: Signal, agentAccount: string, reading: Reading, mark: string): Detection
  {
    match signal
    case Comments =>
      var news := Fresh(agentAccount, mark, reading.artifacts);
      if news == [] then Silent
      else Change(SignalChange(Comments, Newest(news), true, |news|))
    case Checks =>
      var signature := CheckSignature(reading.headSha, reading.failures);
      if signature == "" || signature == mark then Silent
      else Change(SignalChange(Checks, signature, true, 0))
    case Conflict =>
      if !reading.isConflicted || reading.headSha == mark then Silent
      else Change(SignalChange(Conflict, reading.headSha, true, 0))
    case Approval =>
      if !reading.isApproved || reading.headSha == mark then Silent
      else Change(SignalChange(Approval, reading.headSha, false, 0))
  }

  // ---------- watermarks ----------

  type Marks = map<Signal, string>

  /** How far this signal has been acted on, or empty when it never has. */
  function Read(marks: Marks, signal: Signal): string
  {
    if signal in marks then marks[signal] else ""
  }

  function Advanced(marks: Marks, changes: seq<SignalChange>): Marks
    decreases |changes|
  {
    if changes == [] then marks
    else Advanced(marks[changes[0].signal := changes[0].mark], changes[1..])
  }

  const SIGNALS := [Comments, Checks, Conflict, Approval]

  function DetectAll(signals: seq<Signal>, agentAccount: string, reading: Reading, marks: Marks): seq<SignalChange>
  {
    if signals == [] then []
    else
      var rest := DetectAll(signals[1..], agentAccount, reading, marks);
      match Detect(signals[0], agentAccount, reading, Read(marks, signals[0]))
      case Silent => rest
      case Change(change) => [change] + rest
  }

  /** Everything that is new in a reading. */
  function Changes(agentAccount: string, reading: Reading, marks: Marks): seq<SignalChange>
  {
    DetectAll(SIGNALS, agentAccount, reading, marks)
  }
}
