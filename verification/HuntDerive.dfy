/**
  H2 candidates: which module-level calls on added lines are listed, and under which ids.
 */
module HuntDerive {
  import opened Common
  import opened Strings

  datatype Kind = Redis | Postgres | External

  function KindText(k: Kind): string {
    match k case Redis => "redis" case Postgres => "postgres" case External => "external"
  }

  const REDIS_CALLEES: seq<string> := ["redis.from_url", "redis.Redis"]
  const POSTGRES_CALLEES: seq<string> := ["psycopg.connect"]
  const EXTERNAL_CALLEES: seq<string> :=
    ["subprocess.run", "subprocess.Popen", "socket.socket", "socket.create_connection", "urllib.request.urlopen",
     "requests.delete", "requests.get", "requests.head", "requests.options", "requests.patch", "requests.post",
     "requests.put"]

  function KindFor(callee: string): Option<Kind> {
    if callee in REDIS_CALLEES then Some(Redis)
    else if callee in POSTGRES_CALLEES then Some(Postgres)
    else if callee in EXTERNAL_CALLEES then Some(External)
    else None
  }

  /** The callees by kind. */
  lemma KindMeans(callee: string)
    ensures KindFor(callee) == Some(Redis) <==> callee == "redis.from_url" || callee == "redis.Redis"
    ensures KindFor(callee) == Some(Postgres) <==> callee == "psycopg.connect"
    ensures KindFor(callee) == Some(External) <==>
      || callee == "subprocess.run" || callee == "subprocess.Popen"
      || callee == "socket.socket" || callee == "socket.create_connection" || callee == "urllib.request.urlopen"
      || callee == "requests.delete" || callee == "requests.get" || callee == "requests.head"
      || callee == "requests.options" || callee == "requests.patch" || callee == "requests.post"
      || callee == "requests.put"
  {
  }

  /** A call in source order: its dotted callee, if it has one, and the stripped text of its line, if that exists. */
  datatype Call = Call(callee: Option<string>, line: Option<string>, lineno: nat)

  /** A file of the diff: the stripped lines added to it and, if it parses, its module-level calls. */
  datatype File = File(relpath: string, python: bool, added: seq<string>, calls: Option<seq<Call>>)

  datatype Candidate = Candidate(id: string, kind: Kind, callee: string, relpath: string, occurrence: nat, lineno: nat)

  function CandidateId(kind: Kind, relpath: string, callee: string, occurrence: nat): string {
    KindText(kind) + ":" + (relpath + ":" + callee + "#" + Digits(occurrence))
  }

  /** An id reads as its kind, path, callee and number, between the delimiters. */
  lemma IdReads(relpath: string, callee: string, occurrence: nat)
    ensures CandidateId(Redis, relpath, callee, occurrence)
         == "redis:" + relpath + ":" + callee + "#" + Digits(occurrence)
    ensures CandidateId(Postgres, relpath, callee, occurrence)
         == "postgres:" + relpath + ":" + callee + "#" + Digits(occurrence)
    ensures CandidateId(External, relpath, callee, occurrence)
         == "external:" + relpath + ":" + callee + "#" + Digits(occurrence)
  {
    var rest := relpath + ":" + callee + "#" + Digits(occurrence);
    assert "redis:" + relpath + ":" + callee + "#" + Digits(occurrence) == "redis:" + rest;
    assert "postgres:" + relpath + ":" + callee + "#" + Digits(occurrence) == "postgres:" + rest;
    assert "external:" + relpath + ":" + callee + "#" + Digits(occurrence) == "external:" + rest;
  }

  // ---------------------------------------------------------------------------
  // Ids are unambiguous
  // ---------------------------------------------------------------------------

  predicate Plain(s: string) {
    ':' !in s && '#' !in s
  }

  lemma RedisPlain(i: nat)
    requires i < |REDIS_CALLEES|
    ensures Plain(REDIS_CALLEES[i])
  {
  }

  lemma ExternalPlain(i: nat)
    requires i < |EXTERNAL_CALLEES|
    ensures Plain(EXTERNAL_CALLEES[i])
  {
  }

  lemma KnownCalleeIsPlain(callee: string)
    requires KindFor(callee).Some?
    ensures Plain(callee)
  {
    if callee in REDIS_CALLEES {
      var i :| 0 <= i < |REDIS_CALLEES| && REDIS_CALLEES[i] == callee;
      RedisPlain(i);
    } else if callee in EXTERNAL_CALLEES {
      var i :| 0 <= i < |EXTERNAL_CALLEES| && EXTERNAL_CALLEES[i] == callee;
      ExternalPlain(i);
    }
  }

  lemma DigitsArePlain(n: nat)
    ensures Plain(Digits(n))
  {
  }

  /** An id tells its kind, path, callee and number, even where the path holds the delimiters. */
  lemma IdIsInjective(k: Kind, p: string, c: string, n: nat, l: Kind, q: string, d: string, m: nat)
    requires Plain(c) && Plain(d) && CandidateId(k, p, c, n) == CandidateId(l, q, d, m)
    ensures k == l && p == q && c == d && n == m
  {
    FirstSplit(KindText(k), p + ":" + c + "#" + Digits(n), KindText(l), q + ":" + d + "#" + Digits(m), ':');
    DigitsArePlain(n);
    DigitsArePlain(m);
    LastSplit(p + ":" + c, Digits(n), q + ":" + d, Digits(m), '#');
    LastSplit(p, c, q, d, ':');
    DigitsDenote(n);
    DigitsDenote(m);
    assert KindText(k)[0] == KindText(l)[0];
  }

  // ---------------------------------------------------------------------------
  // What is listed
  // ---------------------------------------------------------------------------

  /** A call of a known callee. */
  datatype Site = Site(kind: Kind, callee: string, line: Option<string>, lineno: nat)

  function Classify(call: Call): (r: Option<Site>)
    ensures r.Some? ==> Plain(r.value.callee)
  {
    if call.callee.Some? && KindFor(call.callee.value).Some? then
      KnownCalleeIsPlain(call.callee.value);
      Some(Site(KindFor(call.callee.value).value, call.callee.value, call.line, call.lineno))
    else None
  }

  /** The calls of a file in order, the ones of unknown callees blanked. */
  function Sites(calls: seq<Call>): (r: seq<Option<Site>>)
    ensures |r| == |calls| && forall i | 0 <= i < |r| :: r[i] == Classify(calls[i])
    ensures forall i | 0 <= i < |r| && r[i].Some? :: Plain(r[i].value.callee)
  {
    seq(|calls|, i requires 0 <= i < |calls| => Classify(calls[i]))
  }

  predicate SameKey(s: Option<Site>, kind: Kind, callee: string) {
    s.Some? && s.value.kind == kind && s.value.callee == callee
  }

  predicate OnLine(s: Option<Site>, line: string) {
    s.Some? && s.value.line == Some(line)
  }

  /** How many of the first `k` calls have this kind and callee. */
  function Occurrences(sites: seq<Option<Site>>, k: nat, kind: Kind, callee: string): nat
    requires k <= |sites|
  {
    if k == 0 then 0 else Occurrences(sites, k - 1, kind, callee) + Bit(SameKey(sites[k - 1], kind, callee))
  }

  /** How many of the first `k` calls are of known callees on a line with this text. */
  function Matching(sites: seq<Option<Site>>, k: nat, line: string): nat
    requires k <= |sites|
  {
    if k == 0 then 0 else Matching(sites, k - 1, line) + Bit(OnLine(sites[k - 1], line))
  }

  /** A call is listed when fewer matching calls came before it on that line's text than copies were added. */
  predicate Listed(sites: seq<Option<Site>>, i: nat, added: seq<string>)
    requires i < |sites|
  {
    sites[i].Some? && sites[i].value.line.Some?
    && Matching(sites, i, sites[i].value.line.value) < Count(added, sites[i].value.line.value)
  }

  function CandidateAt(relpath: string, sites: seq<Option<Site>>, i: nat): Candidate
    requires i < |sites| && sites[i].Some?
  {
    var s := sites[i].value;
    var n := Occurrences(sites, i + 1, s.kind, s.callee);
    Candidate(CandidateId(s.kind, relpath, s.callee, n), s.kind, s.callee, relpath, n, s.lineno)
  }

  /** The positions listed among the first `k` calls. */
  function ListedUpTo(sites: seq<Option<Site>>, k: nat, added: seq<string>): (r: seq<nat>)
    requires k <= |sites|
    ensures forall i | 0 <= i < |r| :: r[i] < k && sites[r[i]].Some?
    ensures forall i, j | 0 <= i < j < |r| :: r[i] < r[j]
  {
    if k == 0 then [] else ListedUpTo(sites, k - 1, added) + if Listed(sites, k - 1, added) then [k - 1] else []
  }

  /** Exactly the listed positions, in increasing order. */
  lemma {:induction false} ListedUpToIsExact(sites: seq<Option<Site>>, k: nat, added: seq<string>, i: nat)
    requires k <= |sites|
    ensures i in ListedUpTo(sites, k, added) <==> i < k && Listed(sites, i, added)
  {
    if k > 0 {
      ListedUpToIsExact(sites, k - 1, added, i);
    }
  }

  function Min(a: nat, b: nat): nat { if a < b then a else b }

  /** How many of the listed calls are on lines with this text. */
  function ListedOnLine(sites: seq<Option<Site>>, k: nat, added: seq<string>, line: string): nat
    requires k <= |sites|
  {
    if k == 0 then 0
    else ListedOnLine(sites, k - 1, added, line) + Bit(Listed(sites, k - 1, added) && OnLine(sites[k - 1], line))
  }

  /** Per line text, as many calls are listed as there are matching calls, up to the copies added. */
  lemma {:induction false} ListedIsMin(sites: seq<Option<Site>>, k: nat, added: seq<string>, line: string)
    requires k <= |sites|
    ensures ListedOnLine(sites, k, added, line) == Min(Matching(sites, k, line), Count(added, line))
  {
    if k > 0 {
      ListedIsMin(sites, k - 1, added, line);
    }
  }

  /** Two calls of one kind and callee have different numbers. */
  lemma {:induction false} OccurrencesGrow(sites: seq<Option<Site>>, i: nat, j: nat, kind: Kind, callee: string)
    requires i <= j <= |sites|
    ensures Occurrences(sites, i, kind, callee) <= Occurrences(sites, j, kind, callee)
  {
    if i < j {
      OccurrencesGrow(sites, i, j - 1, kind, callee);
    }
  }

  lemma SitesHaveOwnIds(p: string, a: seq<Option<Site>>, i: nat, q: string, b: seq<Option<Site>>, j: nat)
    requires i < |a| && a[i].Some? && Plain(a[i].value.callee)
    requires j < |b| && b[j].Some? && Plain(b[j].value.callee)
    requires CandidateAt(p, a, i).id == CandidateAt(q, b, j).id
    ensures p == q && (a == b ==> i == j)
  {
    var s, t := a[i].value, b[j].value;
    IdIsInjective(s.kind, p, s.callee, Occurrences(a, i + 1, s.kind, s.callee),
                  t.kind, q, t.callee, Occurrences(b, j + 1, t.kind, t.callee));
    if a == b && i < j {
      OccurrencesGrow(a, i + 1, j, s.kind, s.callee);
    } else if a == b && j < i {
      OccurrencesGrow(a, j + 1, i, s.kind, s.callee);
    }
  }

  // ---------------------------------------------------------------------------
  // The derivation
  // ---------------------------------------------------------------------------

  /** A counting dictionary reads 0 where it has no entry. */
  function CountOf<K>(m: map<K, nat>, key: K): nat {
    if key in m then m[key] else 0
  }

  method CountLines(lines: seq<string>) returns (m: map<string, nat>)
    ensures forall line :: CountOf(m, line) == Count(lines, line)
  {
    m := map[];
    for k := 0 to |lines|
      invariant forall line :: CountOf(m, line) == Count(lines[..k], line)
    {
      m := m[lines[k] := CountOf(m, lines[k]) + 1];
      assert lines[..k + 1] == lines[..k] + [lines[k]];
      forall line { CountAppend(lines[..k], lines[k], line); }
    }
    assert lines[..|lines|] == lines;
  }

  function Positive(n: int): nat { if n > 0 then n else 0 }

  /** The two tallies after the first `k` calls. */
  ghost predicate Tallied(
    sites: seq<Option<Site>>, k: nat, added: seq<string>, left: map<string, nat>, seen: map<(Kind, string), nat>)
    requires k <= |sites|
  {
    && (forall line :: CountOf(left, line) == Positive(Count(added, line) - Matching(sites, k, line)))
    && (forall kind, callee :: CountOf(seen, (kind, callee)) == Occurrences(sites, k, kind, callee))
  }

  /** Counts one call and, if its line still has an added copy, uses that copy up. */
  method TakeSite(
    sites: seq<Option<Site>>, k: nat, added: seq<string>, left0: map<string, nat>, seen0: map<(Kind, string), nat>)
    returns (left: map<string, nat>, seen: map<(Kind, string), nat>, listed: bool)
    requires k < |sites| && Tallied(sites, k, added, left0, seen0)
    ensures Tallied(sites, k + 1, added, left, seen) && (listed <==> Listed(sites, k, added))
    ensures sites[k].Some? ==> (var s := sites[k].value;
      CountOf(seen, (s.kind, s.callee)) == Occurrences(sites, k + 1, s.kind, s.callee))
  {
    left, seen, listed := left0, seen0, false;
    if sites[k].Some? {
      var s := sites[k].value;
      seen := seen[(s.kind, s.callee) := CountOf(seen, (s.kind, s.callee)) + 1];
      if s.line.Some? && CountOf(left, s.line.value) > 0 {
        left := left[s.line.value := CountOf(left, s.line.value) - 1];
        listed := true;
      }
    }
  }

  ghost predicate ListsAll(relpath: string, sites: seq<Option<Site>>, at: seq<nat>, candidates: seq<Candidate>) {
    |candidates| == |at| && forall i | 0 <= i < |at| ::
      at[i] < |sites| && sites[at[i]].Some? && candidates[i] == CandidateAt(relpath, sites, at[i])
  }

  /** Walks the calls of one file, using up the added lines as it lists. */
  method DeriveFile(relpath: string, sites: seq<Option<Site>>, added: seq<string>) returns (candidates: seq<Candidate>)
    ensures ListsAll(relpath, sites, ListedUpTo(sites, |sites|, added), candidates)
  {
    var left := CountLines(added);
    var seen: map<(Kind, string), nat> := map[];
    candidates := [];
    for k := 0 to |sites|
      invariant Tallied(sites, k, added, left, seen)
      invariant ListsAll(relpath, sites, ListedUpTo(sites, k, added), candidates)
    {
      var listed;
      left, seen, listed := TakeSite(sites, k, added, left, seen);
      if listed {
        var s := sites[k].value;
        var n := CountOf(seen, (s.kind, s.callee));
        candidates := candidates
          + [Candidate(CandidateId(s.kind, relpath, s.callee, n), s.kind, s.callee, relpath, n, s.lineno)];
      }
    }
  }

  /** What one file contributes, and at which calls. */
  ghost predicate FromFile(f: File, at: seq<nat>, candidates: seq<Candidate>) {
    if f.python && f.calls.Some? then
      var sites := Sites(f.calls.value);
      at == ListedUpTo(sites, |sites|, f.added) && ListsAll(f.relpath, sites, at, candidates)
    else at == [] && candidates == []
  }

  /** Without added lines nothing is listed. */
  lemma {:induction false} NothingAdded(sites: seq<Option<Site>>, k: nat)
    requires k <= |sites|
    ensures ListedUpTo(sites, k, []) == []
  {
    if k > 0 {
      NothingAdded(sites, k - 1);
    }
  }

  lemma FileIdsDiffer(f: File, at: seq<nat>, candidates: seq<Candidate>, i: nat, j: nat)
    requires FromFile(f, at, candidates) && i < j < |candidates|
    ensures candidates[i].id != candidates[j].id
  {
    var sites := Sites(f.calls.value);
    assert at[i] < at[j];
    if candidates[i].id == candidates[j].id {
      SitesHaveOwnIds(f.relpath, sites, at[i], f.relpath, sites, at[j]);
    }
  }

  lemma FilesIdsDiffer(f: File, a: seq<nat>, c: seq<Candidate>, g: File, b: seq<nat>, d: seq<Candidate>, i: nat, j: nat)
    requires FromFile(f, a, c) && FromFile(g, b, d) && f.relpath != g.relpath && i < |c| && j < |d|
    ensures c[i].id != d[j].id
  {
    if c[i].id == d[j].id {
      SitesHaveOwnIds(f.relpath, Sites(f.calls.value), a[i], g.relpath, Sites(g.calls.value), b[j]);
    }
  }

  method DeriveOne(f: File) returns (candidates: seq<Candidate>, ghost at: seq<nat>)
    ensures FromFile(f, at, candidates)
  {
    candidates, at := [], [];
    if !f.python || f.calls.None? {
      return;
    }
    var sites := Sites(f.calls.value);
    at := ListedUpTo(sites, |sites|, f.added);
    if f.added == [] {
      NothingAdded(sites, |sites|);
      return;
    }
    candidates := DeriveFile(f.relpath, sites, f.added);
  }

  function Flatten(parts: seq<seq<Candidate>>): seq<Candidate> {
    if parts == [] then [] else Flatten(parts[..|parts| - 1]) + parts[|parts| - 1]
  }

  lemma {:induction false} InSomePart(parts: seq<seq<Candidate>>, c: Candidate)
    requires c in Flatten(parts)
    ensures exists i, j :: 0 <= i < |parts| && 0 <= j < |parts[i]| && parts[i][j] == c
  {
    var n := |parts| - 1;
    if c in parts[n] {
      var j :| 0 <= j < |parts[n]| && parts[n][j] == c;
    } else {
      InSomePart(parts[..n], c);
      var i, j :| 0 <= i < n && 0 <= j < |parts[..n][i]| && parts[..n][i][j] == c;
      assert parts[i][j] == c;
    }
  }

  ghost predicate IdsDiffer(candidates: seq<Candidate>) {
    forall i, j | 0 <= i < j < |candidates| :: candidates[i].id != candidates[j].id
  }

  lemma JoinKeepsIdsDifferent(a: seq<Candidate>, b: seq<Candidate>)
    requires IdsDiffer(a) && IdsDiffer(b) && forall x, y | x in a && y in b :: x.id != y.id
    ensures IdsDiffer(a + b)
  {
    forall i, j | 0 <= i < j < |a + b| ensures (a + b)[i].id != (a + b)[j].id {
      if i < |a| <= j {
        assert a[i] in a && b[j - |a|] in b;
      }
    }
  }

  /**
    The derivation over all files, in path order. Each file contributes exactly its listed
    calls, and no two candidates anywhere share an id.
   */
  method Derive(files: seq<File>)
    returns (candidates: seq<Candidate>, ghost parts: seq<seq<Candidate>>, ghost at: seq<seq<nat>>)
    requires forall i, j | 0 <= i < j < |files| :: files[i].relpath != files[j].relpath
    ensures candidates == Flatten(parts) && |parts| == |at| == |files|
    ensures forall i | 0 <= i < |files| :: FromFile(files[i], at[i], parts[i])
    ensures IdsDiffer(candidates)
  {
    candidates, parts, at := [], [], [];
    for k := 0 to |files|
      invariant |parts| == |at| == k && candidates == Flatten(parts) && IdsDiffer(candidates)
      invariant forall i | 0 <= i < k :: FromFile(files[i], at[i], parts[i])
    {
      var more, where := DeriveOne(files[k]);
      NewFileIdsDiffer(files, parts, at, k, more, where);
      JoinKeepsIdsDifferent(candidates, more);
      candidates := candidates + more;
      assert (parts + [more])[..k] == parts;
      parts, at := parts + [more], at + [where];
    }
  }

  lemma OldIdDiffers(files: seq<File>, parts: seq<seq<Candidate>>, at: seq<seq<nat>>, k: nat,
                     more: seq<Candidate>, where: seq<nat>, x: Candidate, l: nat)
    requires |parts| == |at| == k < |files| && FromFile(files[k], where, more) && l < |more| && x in Flatten(parts)
    requires forall i | 0 <= i < k :: FromFile(files[i], at[i], parts[i]) && files[i].relpath != files[k].relpath
    ensures x.id != more[l].id
  {
    InSomePart(parts, x);
    var i, j :| 0 <= i < k && 0 <= j < |parts[i]| && parts[i][j] == x;
    FilesIdsDiffer(files[i], at[i], parts[i], files[k], where, more, j, l);
  }

  lemma NewFileIdsDiffer(files: seq<File>, parts: seq<seq<Candidate>>, at: seq<seq<nat>>, k: nat,
                         more: seq<Candidate>, where: seq<nat>)
    requires |parts| == |at| == k < |files| && FromFile(files[k], where, more)
    requires forall i | 0 <= i < k :: FromFile(files[i], at[i], parts[i]) && files[i].relpath != files[k].relpath
    ensures IdsDiffer(more) && forall x, y | x in Flatten(parts) && y in more :: x.id != y.id
  {
    forall i, j | 0 <= i < j < |more| ensures more[i].id != more[j].id {
      FileIdsDiffer(files[k], where, more, i, j);
    }
    forall x, y | x in Flatten(parts) && y in more ensures x.id != y.id {
      var l :| 0 <= l < |more| && more[l] == y;
      OldIdDiffers(files, parts, at, k, more, where, x, l);
    }
  }
}
