/**
  Sealing a scenario's paths: every file gets a neutral name, no two alike.
 */
module Sealing {
  import opened Strings

  // ---------------------------------------------------------------------------
  // Neutral names
  // ---------------------------------------------------------------------------

  /** The names that can be given: `Again` is a module name that was taken, with the file's own number added. */
  datatype Name = Init(i: nat) | File(i: nat, suffix: string) | Module(k: nat) | Again(k: nat, i: nat)

  /** A file suffix is empty or starts with a dot. */
  predicate IsSuffix(s: string) {
    s == "" || s[0] == '.'
  }

  ghost predicate IsName(n: Name) {
    n.File? ==> IsSuffix(n.suffix)
  }

  function Prefix(n: Name): string {
    match n case Init(_) => "init_" case File(_, _) => "FILE_" case Module(_) => "mod_" case Again(_, _) => "mod_"
  }

  function Number(n: Name): nat {
    match n case Init(i) => i case File(i, _) => i case Module(k) => k case Again(k, _) => k
  }

  function Tail(n: Name): string {
    match n
    case Init(_) => ".py"
    case File(_, suffix) => suffix
    case Module(_) => ".py"
    case Again(_, i) => "_" + Numeral(i) + ".py"
  }

  function Text(n: Name): string {
    Prefix(n) + (Numeral(Number(n)) + Tail(n))
  }

  lemma TextsShareHead(a: Name, b: Name)
    requires IsName(a) && IsName(b) && Text(a) == Text(b)
    ensures Prefix(a) == Prefix(b) && Number(a) == Number(b) && Tail(a) == Tail(b)
  {
    assert Text(a)[0] == Prefix(a)[0] && Text(b)[0] == Prefix(b)[0];
    SamePrefix(Prefix(a), Numeral(Number(a)) + Tail(a), Numeral(Number(b)) + Tail(b));
    DigitsEnd(Numeral(Number(a)), Tail(a), Numeral(Number(b)), Tail(b));
    NumeralDenotes(Number(a));
    NumeralDenotes(Number(b));
  }

  /** Different names have different texts. */
  lemma TextIsInjective(a: Name, b: Name)
    requires IsName(a) && IsName(b) && Text(a) == Text(b)
    ensures a == b
  {
    TextsShareHead(a, b);
    if a.Again? && b.Again? {
      assert Tail(a) == "_" + (Numeral(a.i) + ".py") && Tail(b) == "_" + (Numeral(b.i) + ".py");
      SamePrefix("_", Numeral(a.i) + ".py", Numeral(b.i) + ".py");
      DigitsEnd(Numeral(a.i), ".py", Numeral(b.i), ".py");
      NumeralDenotes(a.i);
      NumeralDenotes(b.i);
    }
  }

  // ---------------------------------------------------------------------------
  // Renaming every path
  // ---------------------------------------------------------------------------

  function LastPart(path: string): string {
    path[LastIndex(path, '/') + 1..]
  }

  /** Where the suffix of a last part starts: at a last dot that is neither first nor final. */
  function SuffixStart(name: string): (k: nat)
    ensures k <= |name| && IsSuffix(name[k..])
  {
    var k := LastIndex(name, '.');
    if 0 < k < |name| - 1 then k else |name|
  }

  function SuffixOf(path: string): (s: string)
    ensures IsSuffix(s)
  {
    LastPart(path)[SuffixStart(LastPart(path))..]
  }

  function StemOf(path: string): string {
    LastPart(path)[..SuffixStart(LastPart(path))]
  }

  /** The last part of the path begins at `a`. */
  ghost predicate LastPartAt(path: string, a: nat) {
    a <= |path| && (a > 0 ==> path[a - 1] == '/') && '/' !in path[a..]
  }

  /** The suffix of a last part begins at `k`: with its last dot, if that is neither first nor final; else there
      is none. */
  ghost predicate SuffixAt(name: string, k: nat) {
    if k < |name| then 0 < k < |name| - 1 && name[k] == '.' && '.' !in name[k + 1..]
    else k == |name| && forall m | 0 < m < |name| - 1 && name[m] == '.' :: '.' in name[m + 1..]
  }

  lemma PartsMean(path: string)
    ensures
      var a, name := LastIndex(path, '/') + 1, LastPart(path);
      && LastPartAt(path, a) && path[a..] == name && SuffixAt(name, SuffixStart(name))
      && StemOf(path) == name[..SuffixStart(name)] && SuffixOf(path) == name[SuffixStart(name)..]
  {
    var name := LastPart(path);
    var k := LastIndex(name, '.');
    forall m | 0 < m < |name| - 1 && name[m] == '.' && m != k ensures '.' in name[m + 1..] {
      assert name[m + 1..][k - m - 1] == '.';
    }
  }

  /** The name first proposed for the file at a position in path order. */
  function Proposed(path: string, index: nat, modules: map<string, nat>): (n: Name)
    ensures IsName(n) && !n.Again? && (n.Init? || n.File? ==> n.i == index)
  {
    if LastPart(path) == "__init__.py" then Init(index)
    else if SuffixOf(path) == ".py" then
      Module(if StemOf(path) in modules then modules[StemOf(path)] else index)
    else File(index, SuffixOf(path))
  }

  /** Its stem and suffix, as the collision rule takes them apart. */
  function StemText(n: Name): string {
    Prefix(n) + Numeral(Number(n))
  }

  function SuffixText(n: Name): string {
    if n.File? then n.suffix else ".py"
  }

  /** A name together with its text. */
  datatype Label = Label(name: Name, text: string)

  ghost predicate Right(l: Label) {
    IsName(l.name) && l.text == Text(l.name)
  }

  ghost predicate BornBefore(n: Name, index: nat) {
    n.Module? || n.i < index
  }

  ghost predicate AllRight(labels: seq<Label>) {
    forall i {:trigger Right(labels[i])} | 0 <= i < |labels| :: Right(labels[i])
  }

  /** What is known of the labels given so far. */
  ghost predicate LabelledSoFar(labels: seq<Label>, used: set<string>) {
    && (forall i | 0 <= i < |labels| :: BornBefore(labels[i].name, |labels|) && labels[i].text in used)
    && (forall t | t in used :: exists i :: 0 <= i < |labels| && labels[i].text == t)
    && (forall i, j | 0 <= i < j < |labels| :: labels[i].text != labels[j].text)
  }

  ghost predicate IsProposal(n: Name, index: nat) {
    IsName(n) && !n.Again? && (n.Init? || n.File? ==> n.i == index)
  }

  /** A name is the proposal or, where that is taken, the proposed module name with the file's own number added. */
  ghost predicate Fits(name: Name, proposed: Name, index: nat, taken: bool) {
    if taken then proposed.Module? && name == Again(proposed.k, index) else name == proposed
  }

  /** One of the first `i` labels has this text. */
  ghost predicate Taken(labels: seq<Label>, i: nat, text: string) {
    exists j | 0 <= j < i && j < |labels| :: labels[j].text == text
  }

  lemma UsedIsOlder(labels: seq<Label>, used: set<string>, n: Name)
    requires AllRight(labels) && LabelledSoFar(labels, used) && IsName(n) && Text(n) in used
    ensures BornBefore(n, |labels|)
  {
    var i :| 0 <= i < |labels| && labels[i].text == Text(n);
    assert Right(labels[i]);
    TextIsInjective(n, labels[i].name);
  }

  lemma RightOneMore(labels: seq<Label>, l: Label)
    requires AllRight(labels) && Right(l)
    ensures AllRight(labels + [l])
  {
    forall i | 0 <= i < |labels + [l]| ensures Right((labels + [l])[i]) {
      if i < |labels| {
        assert Right(labels[i]);
      }
    }
  }

  lemma LabelOneMore(labels: seq<Label>, used: set<string>, l: Label)
    requires LabelledSoFar(labels, used) && l.text !in used && BornBefore(l.name, |labels| + 1)
    ensures LabelledSoFar(labels + [l], used + {l.text})
  {
    var more := labels + [l];
    assert more[|labels|] == l;
    forall t | t in used + {l.text} ensures exists i :: 0 <= i < |more| && more[i].text == t {
      if t in used {
        var i :| 0 <= i < |labels| && labels[i].text == t;
        assert more[i].text == t;
      }
    }
  }

  lemma CollisionText(n: Name, index: nat)
    requires n.Module?
    ensures StemText(n) + "_" + Numeral(index) + SuffixText(n) == Text(Again(n.k, index))
  {
    assert "mod_" + Numeral(n.k) + "_" + Numeral(index) + ".py"
        == "mod_" + (Numeral(n.k) + ("_" + Numeral(index) + ".py"));
  }

  lemma ProposalText(n: Name)
    requires !n.Again?
    ensures StemText(n) + SuffixText(n) == Text(n)
  {
    assert Prefix(n) + Numeral(Number(n)) + SuffixText(n) == Prefix(n) + (Numeral(Number(n)) + SuffixText(n));
  }

  /** The label for one file: the proposal, with the file's own number added when its text is taken. */
  method NeutralLabel(n: Name, index: nat, used: set<string>, ghost labels: seq<Label>) returns (l: Label)
    requires AllRight(labels) && LabelledSoFar(labels, used) && index == |labels| && IsProposal(n, index)
    ensures Fits(l.name, n, index, Text(n) in used)
    ensures AllRight(labels + [l]) && LabelledSoFar(labels + [l], used + {l.text})
  {
    var text := StemText(n) + SuffixText(n);
    ProposalText(n);
    l := Label(n, text);
    if text in used {
      UsedIsOlder(labels, used, n);
      CollisionText(n, index);
      l := Label(Again(n.k, index), StemText(n) + "_" + Numeral(index) + SuffixText(n));
      if l.text in used {
        UsedIsOlder(labels, used, l.name);
      }
    }
    RightOneMore(labels, l);
    LabelOneMore(labels, used, l);
  }

  ghost predicate AllFit(labels: seq<Label>, proposed: seq<Name>)
    requires |labels| <= |proposed|
  {
    forall i | 0 <= i < |labels| :: Fits(labels[i].name, proposed[i], i, Taken(labels, i, Text(proposed[i])))
  }

  lemma TakenStays(labels: seq<Label>, l: Label, i: nat, text: string)
    requires i <= |labels|
    ensures Taken(labels + [l], i, text) <==> Taken(labels, i, text)
  {
    if j :| 0 <= j < i && j < |labels| && labels[j].text == text {
      assert (labels + [l])[j].text == text;
    }
  }

  lemma FitsOneMore(labels: seq<Label>, used: set<string>, proposed: seq<Name>, l: Label)
    requires |labels| < |proposed| && AllFit(labels, proposed) && LabelledSoFar(labels, used)
    requires Fits(l.name, proposed[|labels|], |labels|, Text(proposed[|labels|]) in used)
    ensures AllFit(labels + [l], proposed)
  {
    var more := labels + [l];
    forall i | 0 <= i < |more| ensures Fits(more[i].name, proposed[i], i, Taken(more, i, Text(proposed[i]))) {
      TakenStays(labels, l, i, Text(proposed[i]));
      if i == |labels| {
        assert Text(proposed[i]) in used <==> Taken(labels, i, Text(proposed[i]));
      }
    }
  }

  /** Labels the files in path order. */
  method NeutralLabels(proposed: seq<Name>) returns (labels: seq<Label>)
    requires forall i | 0 <= i < |proposed| :: IsProposal(proposed[i], i)
    ensures |labels| == |proposed|
    ensures AllFit(labels, proposed) && AllRight(labels)
    ensures forall i, j | 0 <= i < j < |labels| :: labels[i].text != labels[j].text
  {
    labels := [];
    var used: set<string> := {};
    for index := 0 to |proposed|
      invariant |labels| == index && AllRight(labels) && LabelledSoFar(labels, used)
      invariant AllFit(labels, proposed)
    {
      var l := NeutralLabel(proposed[index], index, used, labels);
      FitsOneMore(labels, used, proposed, l);
      used := used + {l.text};
      labels := labels + [l];
    }
  }

  const PACKAGE := "neutral_pkg/"

  function Proposals(paths: seq<string>, modules: map<string, nat>): (r: seq<Name>)
    ensures |r| == |paths| && forall i | 0 <= i < |r| :: r[i] == Proposed(paths[i], i, modules) && IsProposal(r[i], i)
  {
    seq(|paths|, i requires 0 <= i < |paths| => Proposed(paths[i], i, modules))
  }

  method Assign(paths: seq<string>, labels: seq<Label>) returns (renames: map<string, string>)
    requires |paths| == |labels| && forall i, j | 0 <= i < j < |paths| :: paths[i] != paths[j]
    ensures forall p :: p in renames <==> p in paths
    ensures forall k | 0 <= k < |paths| :: renames[paths[k]] == PACKAGE + labels[k].text
  {
    renames := map[];
    for i := 0 to |paths|
      invariant forall p :: p in renames <==> p in paths[..i]
      invariant forall k | 0 <= k < i :: renames[paths[k]] == PACKAGE + labels[k].text
    {
      renames := renames[paths[i] := PACKAGE + labels[i].text];
    }
    assert paths[..|paths|] == paths;
  }

  lemma AssignedIsInjective(paths: seq<string>, labels: seq<Label>, renames: map<string, string>)
    requires |paths| == |labels| && forall p :: p in renames <==> p in paths
    requires forall k | 0 <= k < |paths| :: renames[paths[k]] == PACKAGE + labels[k].text
    requires forall i, j | 0 <= i < j < |labels| :: labels[i].text != labels[j].text
    ensures forall p, q | p in renames && q in renames && renames[p] == renames[q] :: p == q
  {
    forall p, q | p in renames && q in renames && renames[p] == renames[q] ensures p == q {
      var i :| 0 <= i < |paths| && paths[i] == p;
      var j :| 0 <= j < |paths| && paths[j] == q;
      SamePrefix(PACKAGE, labels[i].text, labels[j].text);
    }
  }

  /** The number of a module: the one its stem was given, or else the file's own. */
  ghost function ModuleNumber(stem: string, index: nat, modules: map<string, nat>): nat {
    if stem in modules then modules[stem] else index
  }

  ghost function ModuleFile(k: nat): string {
    "mod_" + (Numeral(k) + ".py")
  }

  /**
    The name in the neutral package of a file whose last part has this stem and suffix: a package file
    is numbered as such; a module has its module number, and its own number as well if the plain
    name is taken; any other file is numbered and keeps its suffix.
   */
  ghost predicate IsGiven(
    stem: string, suffix: string, index: nat, modules: map<string, nat>, taken: string -> bool, name: string) {
    if stem + suffix == "__init__.py" then name == "init_" + (Numeral(index) + ".py")
    else if suffix == ".py" then
      var k := ModuleNumber(stem, index, modules);
      name == if taken(ModuleFile(k)) then "mod_" + (Numeral(k) + ("_" + Numeral(index) + ".py")) else ModuleFile(k)
    else name == "FILE_" + (Numeral(index) + suffix)
  }

  /** The new path of the file at a position, by the parts of its old path and the new paths before it. */
  ghost predicate NamedAfter(
    paths: seq<string>, index: nat, modules: map<string, nat>, renames: map<string, string>, name: string)
    requires index < |paths| && forall p | p in paths :: p in renames
  {
    exists a: nat, k: nat | LastPartAt(paths[index], a) && SuffixAt(paths[index][a..], k) ::
      var last := paths[index][a..];
      IsGiven(last[..k], last[k..], index, modules, GivenBefore(paths, index, renames), name)
  }

  /** The file at a position is in the neutral package, under the name it should be given. */
  ghost predicate Renamed(paths: seq<string>, index: nat, modules: map<string, nat>, renames: map<string, string>)
    requires index < |paths| && forall p | p in paths :: p in renames
  {
    exists name ::
      renames[paths[index]] == "neutral_pkg/" + name && NamedAfter(paths, index, modules, renames, name)
  }

  /** Whether an earlier path was given that name in the neutral package. */
  ghost function GivenBefore(paths: seq<string>, index: nat, renames: map<string, string>): string -> bool
    requires index < |paths| && forall p | p in paths :: p in renames
  {
    name => exists j | 0 <= j < index :: renames[paths[j]] == "neutral_pkg/" + name
  }

  lemma LabelIsGiven(path: string, index: nat, modules: map<string, nat>, l: Label, taken: string -> bool)
    requires Right(l) && Fits(l.name, Proposed(path, index, modules), index, taken(Text(Proposed(path, index, modules))))
    ensures IsGiven(StemOf(path), SuffixOf(path), index, modules, taken, l.text)
  {
    var n := Proposed(path, index, modules);
    assert StemOf(path) + SuffixOf(path) == LastPart(path);
    if n.Module? {
      assert Text(n) == ModuleFile(n.k);
    }
  }

  lemma TakenIsGiven(
    paths: seq<string>, labels: seq<Label>, renames: map<string, string>, i: nat, text: string)
    requires |paths| == |labels| && i < |paths| && forall p | p in paths :: p in renames
    requires forall k | 0 <= k < |paths| :: renames[paths[k]] == PACKAGE + labels[k].text
    ensures Taken(labels, i, text) <==> GivenBefore(paths, i, renames)(text)
  {
    if j :| 0 <= j < i && renames[paths[j]] == "neutral_pkg/" + text {
      SamePrefix(PACKAGE, labels[j].text, text);
    }
    if j :| 0 <= j < i && j < |labels| && labels[j].text == text {
      assert renames[paths[j]] == "neutral_pkg/" + text;
    }
  }

  lemma PathIsNamed(
    paths: seq<string>, modules: map<string, nat>, labels: seq<Label>, renames: map<string, string>, i: nat)
    requires |paths| == |labels| && i < |paths| && forall p | p in paths :: p in renames
    requires forall k | 0 <= k < |paths| :: renames[paths[k]] == PACKAGE + labels[k].text
    requires Right(labels[i])
    requires
      var n := Proposed(paths[i], i, modules);
      Fits(labels[i].name, n, i, Taken(labels, i, Text(n)))
    ensures Renamed(paths, i, modules, renames)
  {
    assert renames[paths[i]] == "neutral_pkg/" + labels[i].text;
    TakenIsGiven(paths, labels, renames, i, Text(Proposed(paths[i], i, modules)));
    LabelIsGiven(paths[i], i, modules, labels[i], GivenBefore(paths, i, renames));
    PartsMean(paths[i]);
  }

  /** `paths` are the keys of the file map, sorted; `modules` gives a renamed module stem its number. */
  method PathRenames(paths: seq<string>, modules: map<string, nat>) returns (renames: map<string, string>)
    requires forall i, j | 0 <= i < j < |paths| :: paths[i] != paths[j]
    ensures forall p :: p in renames <==> p in paths
    ensures forall p, q | p in renames && q in renames && renames[p] == renames[q] :: p == q
    ensures forall i | 0 <= i < |paths| :: Renamed(paths, i, modules, renames)
  {
    var proposed := Proposals(paths, modules);
    var labels := NeutralLabels(proposed);
    renames := Assign(paths, labels);
    AssignedIsInjective(paths, labels, renames);
    forall i | 0 <= i < |paths| ensures Renamed(paths, i, modules, renames) {
      assert Right(labels[i]) && Fits(labels[i].name, proposed[i], i, Taken(labels, i, Text(proposed[i])));
      PathIsNamed(paths, modules, labels, renames, i);
    }
  }
}
