/** Candidate building and rotation (go_client/turn_scheduler.go). Trimming and address parsing, with the
    -turn/-port overrides applied, are parameters; a candidate is determined by its trimmed URL. */
module TurnCandidates {
  import opened Base
  import opened TurnTable

  /** `parse` returns the host:port of a trimmed URL, None if it is malformed; `fold` is case folding. */
  datatype Urls = Urls(trim: string -> string, parse: string -> Option<string>, fold: string -> Key)

  datatype BuildError = Malformed | NoUrls
  datatype Built = Ok(cands: seq<Candidate>) | Err(error: BuildError)

  predicate Blank(p: Urls, raw: string) { p.trim(raw) == "" }
  predicate Bad(p: Urls, raw: string) { !Blank(p, raw) && p.parse(p.trim(raw)).None? }
  predicate Good(p: Urls, raw: string) { !Blank(p, raw) && p.parse(p.trim(raw)).Some? }

  function CandidateOf(p: Urls, raw: string): (c: Candidate)
    requires Good(p, raw)
  {
    Candidate(p.trim(raw), p.fold(p.parse(p.trim(raw)).value))
  }

  /** A URL is skipped if nothing is left of it after trimming, and otherwise malformed or not as it parses. */
  lemma KindsExactly(p: Urls, raw: string)
    ensures Blank(p, raw) <==> p.trim(raw) == ""
    ensures Bad(p, raw) <==> p.trim(raw) != "" && p.parse(p.trim(raw)).None?
    ensures Good(p, raw) <==> p.trim(raw) != "" && p.parse(p.trim(raw)).Some?
  {
  }

  /** A candidate carries the trimmed URL, and two URLs are one endpoint exactly when their addresses fold alike. */
  lemma CandidateExactly(p: Urls, raw: string, raw': string)
    requires Good(p, raw) && Good(p, raw')
    ensures CandidateOf(p, raw).url == p.trim(raw)
    ensures CandidateOf(p, raw).key == CandidateOf(p, raw').key
       <==> p.fold(p.parse(p.trim(raw)).value) == p.fold(p.parse(p.trim(raw')).value)
  {
  }

  predicate DistinctKeys(cs: seq<Candidate>) {
    forall i, j :: 0 <= i < j < |cs| ==> cs[i].key != cs[j].key
  }

  /** `cs` are the candidates of the URLs at the increasing positions `at`; each is the first with its key,
      and no key is missing. */
  ghost predicate FirstOccurrences(p: Urls, raws: seq<string>, cs: seq<Candidate>, at: seq<nat>) {
    && |at| == |cs|
    && (forall i :: 0 <= i < |at| ==> at[i] < |raws| && Good(p, raws[at[i]]) && cs[i] == CandidateOf(p, raws[at[i]]))
    && (forall i, j :: 0 <= i < j < |at| ==> at[i] < at[j])
    && (forall i, n :: 0 <= i < |at| && 0 <= n < at[i] && Good(p, raws[n]) ==>
          CandidateOf(p, raws[n]).key != cs[i].key)
    && (forall n :: 0 <= n < |raws| && Good(p, raws[n]) ==> Listed(cs, CandidateOf(p, raws[n]).key))
  }

  ghost predicate Listed(cs: seq<Candidate>, k: Key) {
    exists i :: 0 <= i < |cs| && cs[i].key == k
  }

  /** State of the building loop after the first `n` URLs. */
  ghost predicate BuiltSoFar(p: Urls, raws: seq<string>, n: nat, seen: set<Key>, cs: seq<Candidate>, at: seq<nat>) {
    && n <= |raws|
    && (forall m :: 0 <= m < n ==> !Bad(p, raws[m]))
    && (forall k :: k in seen <==> Listed(cs, k))
    && DistinctKeys(cs) && FirstOccurrences(p, raws[..n], cs, at)
    && (cs == [] <==> forall m :: 0 <= m < n ==> Blank(p, raws[m]))
  }

  /** A URL that is blank or repeats a listed key adds nothing. */
  lemma Skip(p: Urls, raws: seq<string>, n: nat, seen: set<Key>, cs: seq<Candidate>, at: seq<nat>)
    requires n < |raws| && BuiltSoFar(p, raws, n, seen, cs, at)
    requires Blank(p, raws[n]) || (Good(p, raws[n]) && CandidateOf(p, raws[n]).key in seen)
    ensures BuiltSoFar(p, raws, n + 1, seen, cs, at)
  {
    var old_, new_ := raws[..n], raws[..n + 1];
    assert forall m :: 0 <= m < n ==> new_[m] == old_[m];
  }

  /** A URL with a new key is appended. */
  lemma Append(p: Urls, raws: seq<string>, n: nat, seen: set<Key>, cs: seq<Candidate>, at: seq<nat>)
    requires n < |raws| && BuiltSoFar(p, raws, n, seen, cs, at)
    requires Good(p, raws[n]) && CandidateOf(p, raws[n]).key !in seen
    ensures var c := CandidateOf(p, raws[n]);
            BuiltSoFar(p, raws, n + 1, seen + {c.key}, cs + [c], at + [n])
  {
    var c := CandidateOf(p, raws[n]);
    var old_, new_, cs', at' := raws[..n], raws[..n + 1], cs + [c], at + [n];
    assert forall m :: 0 <= m < n ==> new_[m] == old_[m];
    forall k ensures Listed(cs', k) <==> Listed(cs, k) || k == c.key {
      if Listed(cs, k) {
        var i :| 0 <= i < |cs| && cs[i].key == k;
        assert cs'[i] == cs[i];
      }
      assert cs'[|cs|] == c;
    }
    forall m | 0 <= m < |new_| && Good(p, new_[m]) ensures Listed(cs', CandidateOf(p, new_[m]).key) {
      if m < n { assert Good(p, old_[m]); }
    }
    forall i | 0 <= i < |cs| ensures cs[i].key != c.key {
      assert Listed(cs, cs[i].key);
    }
    forall m | 0 <= m < n && Good(p, new_[m]) ensures CandidateOf(p, new_[m]).key != c.key {
      assert Listed(cs, CandidateOf(p, old_[m]).key);
    }
  }

  /** After the last URL. */
  lemma AllBuilt(p: Urls, raws: seq<string>, seen: set<Key>, cs: seq<Candidate>, at: seq<nat>)
    requires BuiltSoFar(p, raws, |raws|, seen, cs, at)
    ensures forall n :: 0 <= n < |raws| ==> !Bad(p, raws[n])
    ensures cs == [] <==> forall n :: 0 <= n < |raws| ==> Blank(p, raws[n])
    ensures DistinctKeys(cs) && FirstOccurrences(p, raws, cs, at)
  {
    assert raws[..|raws|] == raws;
  }

  lemma BuiltNothing(p: Urls, raws: seq<string>)
    ensures BuiltSoFar(p, raws, 0, {}, [], [])
  {
  }

  /** One round of the building loop: a blank URL or a listed key changes nothing, a new key is appended. */
  method AddUrl(p: Urls, raws: seq<string>, n: nat, seen: set<Key>, cs: seq<Candidate>, ghost at: seq<nat>)
    returns (bad: bool, seen': set<Key>, cs': seq<Candidate>, ghost at': seq<nat>)
    requires n < |raws| && BuiltSoFar(p, raws, n, seen, cs, at)
    ensures bad <==> Bad(p, raws[n])
    ensures !bad ==> BuiltSoFar(p, raws, n + 1, seen', cs', at')
  {
    seen', cs', at' := seen, cs, at;
    var url := p.trim(raws[n]);
    if url == "" {
      Skip(p, raws, n, seen, cs, at);
      return false, seen, cs, at;
    }
    var endpoint := p.parse(url);
    if endpoint == None { return true, seen, cs, at; }
    var k := p.fold(endpoint.value);
    assert CandidateOf(p, raws[n]) == Candidate(url, k);
    if k in seen {
      Skip(p, raws, n, seen, cs, at);
      return false, seen, cs, at;
    }
    Append(p, raws, n, seen, cs, at);
    return false, seen + {k}, cs + [Candidate(url, k)], at + [n];
  }

  /** buildTurnEndpointCandidates: duplicates by endpoint key are dropped, first occurrences keep their order. */
  method Build(p: Urls, raws: seq<string>) returns (r: Built, ghost at: seq<nat>)
    ensures r == Err(Malformed) <==> exists n :: 0 <= n < |raws| && Bad(p, raws[n])
    ensures r == Err(NoUrls) <==> forall n :: 0 <= n < |raws| ==> Blank(p, raws[n])
    ensures r.Ok? ==> r.cands != [] && DistinctKeys(r.cands) && FirstOccurrences(p, raws, r.cands, at)
  {
    var seen: set<Key> := {};
    var cs: seq<Candidate> := [];
    at := [];
    BuiltNothing(p, raws);
    for n := 0 to |raws|
      invariant BuiltSoFar(p, raws, n, seen, cs, at)
    {
      var bad;
      bad, seen, cs, at := AddUrl(p, raws, n, seen, cs, at);
      if bad { return Err(Malformed), at; }
    }
    AllBuilt(p, raws, seen, cs, at);
    if cs == [] { return Err(NoUrls), at; }
    return Ok(cs), at;
  }

  /** Position of the first candidate with the endpoint's key, |cs| if there is none. */
  function IndexOf(cs: seq<Candidate>, current: Key): (i: nat)
    ensures i <= |cs|
    ensures i < |cs| ==> cs[i].key == current
    ensures forall j :: 0 <= j < i ==> cs[j].key != current
  {
    if cs == [] then 0
    else if cs[0].key == current then 0
    else
      var i := IndexOf(cs[1..], current);
      assert forall j :: 1 <= j < 1 + i ==> cs[j] == cs[1..][j - 1];
      1 + i
  }

  /** nextUniqueTurnURL: nothing to switch to when the list cannot be built or has one endpoint; otherwise the
      next one of the built list `cs`. */
  method NextUniqueUrl(p: Urls, raws: seq<string>, currentEndpoint: string)
    returns (url: string, ghost cs: seq<Candidate>, ghost at: seq<nat>)
    ensures (exists n :: 0 <= n < |raws| && Bad(p, raws[n])) ==> url == ""
    ensures (forall n :: 0 <= n < |raws| ==> !Bad(p, raws[n])) ==>
              && DistinctKeys(cs) && FirstOccurrences(p, raws, cs, at)
              && url == if |cs| < 2 then "" else NextCandidate(cs, p.fold(currentEndpoint)).url
  {
    var r;
    r, at := Build(p, raws);
    if r.Err? {
      assert r.error.Malformed? || r.error.NoUrls?;
      return "", [], [];
    }
    cs := r.cands;
    url := NextUrl(r.cands, p.fold(currentEndpoint));
  }

  /** The rotation on a built list. Although it searches onwards for a different endpoint, with distinct
      keys the answer is always the immediate successor, cyclically. */
  method NextUrl(cs: seq<Candidate>, current: Key) returns (url: string)
    requires DistinctKeys(cs)
    ensures |cs| < 2 ==> url == ""
    ensures |cs| >= 2 ==> url == NextCandidate(cs, current).url
  {
    if |cs| < 2 { return ""; }
    var at := 0;
    while at < |cs| && cs[at].key != current
      invariant at <= |cs| && forall j :: 0 <= j < at ==> cs[j].key != current
    {
      at := at + 1;
    }
    assert at == IndexOf(cs, current);
    if at == |cs| {
      for i := 0 to |cs|
        invariant i == 0
      {
        if cs[i].key != current { return cs[i].url; }
      }
      return "";
    }
    url := NextFrom(cs, current, at);
  }

  /** The search onwards from a listed endpoint. */
  method NextFrom(cs: seq<Candidate>, current: Key, at: nat) returns (url: string)
    requires |cs| >= 2 && DistinctKeys(cs) && at < |cs| && cs[at].key == current
    ensures url == cs[Turn(at, 1, |cs|)].url
  {
    url := "";
    for step := 1 to |cs|
      invariant step == 1
    {
      WrapOnce(at, step, |cs|);
      var c := cs[(at + step) % |cs|];
      DifferentSlots(cs, at, Turn(at, 1, |cs|));
      if c.key != current { return c.url; }
    }
  }

  lemma DifferentSlots(cs: seq<Candidate>, i: nat, j: nat)
    requires DistinctKeys(cs) && i < |cs| && j < |cs| && i != j
    ensures cs[i].key != cs[j].key
  {
    if i > j { assert cs[j].key != cs[i].key; }
  }

  function NextCandidate(cs: seq<Candidate>, current: Key): (c: Candidate)
    requires |cs| >= 2
  {
    var i := IndexOf(cs, current);
    if i == |cs| then cs[0] else cs[Turn(i, 1, |cs|)]
  }

  /** An endpoint that is not listed, say because the list has changed, is followed by the first candidate. */
  lemma UnknownStartsOver(cs: seq<Candidate>, current: Key)
    requires |cs| >= 2 && !Listed(cs, current)
    ensures NextCandidate(cs, current) == cs[0]
  {
    if IndexOf(cs, current) < |cs| { assert Listed(cs, current); }
  }

  /** The endpoint reached after `n` consecutive rotations. */
  function Rotate(cs: seq<Candidate>, start: Key, n: nat): (e: Key)
    requires |cs| >= 2
  {
    if n == 0 then start else NextCandidate(cs, Rotate(cs, start, n - 1)).key
  }

  lemma {:induction false} RotationPosition(cs: seq<Candidate>, i: nat, n: nat)
    requires |cs| >= 2 && DistinctKeys(cs) && i < |cs| && n <= |cs|
    ensures Rotate(cs, cs[i].key, n) == cs[Turn(i, n, |cs|)].key
  {
    if n > 0 {
      RotationPosition(cs, i, n - 1);
      var here := Turn(i, n - 1, |cs|);
      NextOfListed(cs, here);
      assert Turn(here, 1, |cs|) == Turn(i, n, |cs|);
      assert Rotate(cs, cs[i].key, n) == NextCandidate(cs, cs[here].key).key;
    }
  }

  lemma NextOfListed(cs: seq<Candidate>, i: nat)
    requires |cs| >= 2 && DistinctKeys(cs) && i < |cs|
    ensures NextCandidate(cs, cs[i].key) == cs[Turn(i, 1, |cs|)]
  {
    IndexOfListed(cs, i);
  }

  lemma IndexOfListed(cs: seq<Candidate>, i: nat)
    requires DistinctKeys(cs) && i < |cs|
    ensures IndexOf(cs, cs[i].key) == i
  {
    var found := IndexOf(cs, cs[i].key);
    if found != i { DifferentSlots(cs, found, i); }
  }

  /** Rotating from any listed endpoint comes back after exactly |cs| steps, having visited every unique
      endpoint exactly once on the way. */
  lemma RotationVisitsAllOnce(cs: seq<Candidate>, i: nat)
    requires |cs| >= 2 && DistinctKeys(cs) && i < |cs|
    ensures Rotate(cs, cs[i].key, |cs|) == cs[i].key
    ensures forall a, b :: 0 <= a < b < |cs| ==>
              Rotate(cs, cs[i].key, a) != Rotate(cs, cs[i].key, b)
    ensures forall j :: 0 <= j < |cs| ==> Rotate(cs, cs[i].key, Distance(i, j, |cs|)) == cs[j].key
  {
    RotationPosition(cs, i, |cs|);
    forall a, b | 0 <= a < b < |cs| ensures Rotate(cs, cs[i].key, a) != Rotate(cs, cs[i].key, b) {
      NoRepeat(cs, i, a, b);
    }
    forall j | 0 <= j < |cs| ensures Rotate(cs, cs[i].key, Distance(i, j, |cs|)) == cs[j].key {
      RotationPosition(cs, i, Distance(i, j, |cs|));
    }
  }

  lemma NoRepeat(cs: seq<Candidate>, i: nat, a: nat, b: nat)
    requires |cs| >= 2 && DistinctKeys(cs) && i < |cs| && a < b < |cs|
    ensures Rotate(cs, cs[i].key, a) != Rotate(cs, cs[i].key, b)
  {
    RotationPosition(cs, i, a);
    RotationPosition(cs, i, b);
    DifferentSlots(cs, Turn(i, a, |cs|), Turn(i, b, |cs|));
  }
}
