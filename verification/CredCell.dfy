/** The credential slot of one link (go_client/creds.go) and what its locked sections do to it. */
module CredCell {
  import opened Base

  const LIFETIME: nat := 600 * SECOND
  const SAFETY_MARGIN: nat := 60 * SECOND

  datatype Creds = Creds(user: string, pass: string, addrs: seq<string>, expiresAt: Time, link: string, generation: nat)

  const EMPTY: Creds := Creds("", "", [], 0, "", 0)

  /** What cache.mutex protects, with the two counters. */
  datatype Cell = Cell(creds: Creds, generation: nat, revision: nat)

  /** The validity test of every cache read. */
  predicate Usable(c: Cell, link: string, now: Time) {
    c.creds.link == link && now < c.creds.expiresAt && |c.creds.addrs| > 0
  }

  /** InvalidateLinkCacheIfGen: clears the slot only for a matching, non-zero generation. */
  function Invalidated(c: Cell, failedGen: nat): (r: (Cell, bool)) {
    if failedGen == 0 then (c, false)
    else if c.creds.link == "" || |c.creds.addrs| == 0 then (c, false)
    else if c.creds.generation != failedGen then (c, false)
    else (Cell(EMPTY, c.generation, c.revision + 1), true)
  }

  /** The publication section of runCacheFetch: refused unless the revision is the one the fetch started from. */
  function Published(c: Cell, startRevision: nat, user: string, pass: string, addrs: seq<string>, link: string, now: Time)
    : (r: (Cell, Option<nat>))
  {
    if c.revision != startRevision then (c, None)
    else
      var gen := c.generation + 1;
      (Cell(Creds(user, pass, addrs, now + (LIFETIME - SAFETY_MARGIN), link, gen), gen, c.revision + 1), Some(gen))
  }

  /** The slot is empty or carries exactly the current generation, for this cache's link. */
  ghost predicate Consistent(c: Cell, link: string) {
    c.creds == EMPTY || (c.creds.generation == c.generation && c.generation > 0 && c.creds.link == link)
  }

  /** Generation `g` has been issued and no read can return it, or anything older, any more. */
  ghost predicate Superseded(c: Cell, g: nat) {
    g <= c.generation && (c.creds.generation > g || c.creds.addrs == [])
  }

  /** After an invalidation request for an issued generation, that generation is out of reach, whether the slot
      was cleared, was empty, or already held something newer. */
  lemma InvalidationSupersedes(c: Cell, link: string, g: nat)
    requires Consistent(c, link) && link != "" && 0 < g <= c.generation
    ensures Superseded(Invalidated(c, g).0, g) && Consistent(Invalidated(c, g).0, link)
    ensures Invalidated(c, g).1 <==> c.creds.generation == g && c.creds.addrs != []
    ensures !Invalidated(c, g).1 ==> Invalidated(c, g).0 == c
  {
  }

  /** The link must be non-empty: a cache for the empty link is treated as empty by invalidation but not by reads,
      so the failed generation stays readable. */
  lemma EmptyLinkDefeatsInvalidation()
    ensures var c := Published(Cell(EMPTY, 0, 0), 0, "u", "p", ["turn:a:1"], "", 5).0;
            Consistent(c, "") && Usable(Invalidated(c, 1).0, "", 6) && Invalidated(c, 1).0.creds.generation == 1
  {
  }

  /** Exactly then: a failed generation that is in the slot goes out of reach if and only if the link is non-empty. */
  lemma InvalidationWorksExactlyIf(c: Cell, link: string, g: nat)
    requires Consistent(c, link) && 0 < g == c.creds.generation && c.creds.addrs != []
    ensures Superseded(Invalidated(c, g).0, g) <==> link != ""
  {
  }

  /** The cache object; `Value()` is its abstract value. */
  class CredCache {
    var creds: Creds
    var generation: nat
    var revision: nat

    ghost function Value(): (c: Cell)
      reads this
    {
      Cell(creds, generation, revision)
    }

    constructor ()
      ensures Value() == Cell(EMPTY, 0, 0)
    {
      creds, generation, revision := EMPTY, 0, 0;
    }

    method Read(link: string, now: Time) returns (r: Option<Creds>)
      ensures r.Some? <==> Usable(Value(), link, now)
      ensures r.Some? ==> r.value == creds && 0 < |r.value.addrs|
    {
      if creds.link == link && now < creds.expiresAt && |creds.addrs| > 0 {
        return Some(creds);
      }
      return None;
    }

    method Invalidate(failedGen: nat) returns (done: bool)
      modifies this
      ensures (Value(), done) == Invalidated(old(Value()), failedGen)
    {
      if failedGen == 0 { return false; }
      if creds.link == "" || |creds.addrs| == 0 { return false; }
      if creds.generation != failedGen { return false; }
      revision := revision + 1;
      creds := EMPTY;
      return true;
    }

    method Publish(startRevision: nat, user: string, pass: string, addrs: seq<string>, link: string, now: Time)
      returns (gen: Option<nat>)
      modifies this
      ensures (Value(), gen) == Published(old(Value()), startRevision, user, pass, addrs, link, now)
    {
      if revision != startRevision { return None; }
      generation := generation + 1;
      revision := revision + 1;
      creds := Creds(user, pass, addrs, now + (LIFETIME - SAFETY_MARGIN), link, generation);
      return Some(generation);
    }
  }

  /** A shared fetch in flight. */
  class FetchOp {
    const startRevision: nat
    var waiters: int
    var cancelled: bool

    constructor (startRevision: nat)
      ensures this.startRevision == startRevision && waiters == 1 && !cancelled
    {
      this.startRevision, waiters, cancelled := startRevision, 1, false;
    }

    /** A waiter whose own context ended leaves; the last one to leave cancels the fetch. */
    method Abandon()
      modifies this
      ensures waiters == old(waiters) - 1
      ensures cancelled <==> old(cancelled) || waiters <= 0
    {
      waiters := waiters - 1;
      if waiters <= 0 { cancelled := true; }
    }
  }

  /** What fetchMu protects: the registered fetch, if any. */
  class FetchSlot {
    var active: FetchOp?

    constructor ()
      ensures active == null
    {
      active := null;
    }

    /** Join the registered fetch if it is not cancelled, otherwise register a new one. */
    method Join(revision: nat) returns (op: FetchOp, created: bool)
      modifies this, if active == null then {} else {active}
      ensures active == op && !op.cancelled
      ensures created <==> old(active == null || active.cancelled)
      ensures created ==> fresh(op) && op.waiters == 1 && op.startRevision == revision
      ensures created && old(active) != null ==> unchanged(old(active))
      ensures !created ==> op == old(active) && op.waiters == old(active.waiters) + 1
    {
      if active != null && !active.cancelled {
        op, created := active, false;
        op.waiters := op.waiters + 1;
      } else {
        op := new FetchOp(revision);
        created := true;
        active := op;
      }
    }

    /** A finished fetch releases the slot only if it is still its own. */
    method Release(op: FetchOp)
      modifies this
      ensures active == if old(active) == op then null else old(active)
    {
      if active == op { active := null; }
    }
  }
}
