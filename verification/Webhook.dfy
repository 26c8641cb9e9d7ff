/** Webhook acceptance and its replay window (internal/providers/webhook.go). Times are nanoseconds
    on one clock; the digest, the timestamp parser and the signature header parser are parameters. */
module Webhook {
  import opened OrderModel
  import opened Text

  const MINUTE: int := 60_000_000_000
  const DEFAULT_TOLERANCE: int := 5 * MINUTE
  const DEFAULT_REPLAY_TTL: int := 24 * 60 * MINUTE

  /** The signature of a secret over an event ID, a timestamp and a payload. */
  type Digest = (string, string, int, string) -> string

  datatype Verifier = Verifier(provider: string, currentSecret: string, previousSecrets: seq<string>, tolerance: int,
                               replayTTL: int)

  /** `timestamp` is None if the header does not parse; `signatures` are the well-formed v1 entries. */
  datatype Request = Request(eventID: string, stampGiven: bool, timestamp: Option<int>, signatureGiven: bool,
                             signatures: seq<string>, payload: string)

  datatype WebhookError = ProviderMissing | SecretMissing | EventIDMissing | TimestampMissing | SignatureMissing
    | TimestampInvalid | OutOfWindow | SignatureInvalid | AlreadyAccepted

  datatype Outcome = Verified(provider: string, eventID: string, timestamp: int, receivedAt: int, replayExpiresAt: int)
    | Refused(error: WebhookError)

  /** Five minutes unless configured. */
  function Tolerance(v: Verifier): (t: int)
    ensures t == if v.tolerance != 0 then v.tolerance else 300_000_000_000
  {
    if v.tolerance == 0 then DEFAULT_TOLERANCE else v.tolerance
  }

  /** A day unless configured. */
  function ReplayTTL(v: Verifier): (t: int)
    ensures t == if v.replayTTL != 0 then v.replayTTL else 86_400_000_000_000
  {
    if v.replayTTL == 0 then DEFAULT_REPLAY_TTL else v.replayTTL
  }

  predicate InWindow(timestamp: int, now: int, tolerance: int) {
    now - tolerance <= timestamp <= now + tolerance
  }

  function ReplayKey(provider: string, eventID: string): (k: string) {
    provider + ['\0'] + eventID
  }

  // ------------------------------------------------------------ the replay store

  /** The entries that have not expired. */
  function Live(seen: map<string, int>, now: int): (m: map<string, int>) {
    map k | k in seen && seen[k] > now :: seen[k]
  }

  function Admit(seen: map<string, int>, key: string, now: int, expires: int): (r: (map<string, int>, bool)) {
    if key in Live(seen, now) then (Live(seen, now), false) else (Live(seen, now)[key := expires], true)
  }

  class MemoryReplayStore {
    var seen: map<string, int>

    constructor ()
      ensures seen == map[]
    {
      seen := map[];
    }

    /** Drops what has expired, then accepts a key that is not live. */
    method RecordWebhook(provider: string, eventID: string, receivedAt: int, expiresAt: int) returns (accepted: bool)
      modifies this
      ensures (seen, accepted) == Admit(old(seen), ReplayKey(provider, eventID), receivedAt, expiresAt)
      ensures var key := provider + ['\0'] + eventID;
        && accepted == !(key in old(seen) && old(seen)[key] > receivedAt)
        && (accepted ==> key in seen && seen[key] == expiresAt)
        && forall k :: k != key || !accepted ==>
             (k in seen <==> k in old(seen) && old(seen)[k] > receivedAt) && (k in seen ==> seen[k] == old(seen)[k])
    {
      var todo := seen.Keys;
      while todo != {}
        invariant todo <= seen.Keys <= old(seen).Keys
        invariant forall k :: k in seen ==> seen[k] == old(seen)[k]
        invariant forall k :: k in old(seen) && k !in todo ==> (k in seen <==> old(seen)[k] > receivedAt)
        decreases |todo|
      {
        var k :| k in todo;
        todo := todo - {k};
        if !(seen[k] > receivedAt) {
          seen := map j | j in seen && j != k :: seen[j];
        }
      }
      assert seen == Live(old(seen), receivedAt);
      var key := ReplayKey(provider, eventID);
      if key in seen && seen[key] > receivedAt {
        return false;
      }
      seen := seen[key := expiresAt];
      accepted := true;
    }
  }

  // ------------------------------------------------------------ verification

  /** Some configured secret signs the request with one of the given signatures. */
  ghost predicate Signed(v: Verifier, r: Request, digest: Digest) {
    && r.timestamp.Some?
    && exists s, g :: s in [v.currentSecret] + v.previousSecrets && !Blank(s) && g in r.signatures
         && g == digest(Trim(s), Trim(r.eventID), r.timestamp.value, r.payload)
  }

  method Secrets(v: Verifier) returns (secrets: seq<string>)
    ensures forall s :: s in secrets <==> exists t :: t in [v.currentSecret] + v.previousSecrets && !Blank(t) && s == Trim(t)
  {
    hide Trim;
    var values := [v.currentSecret] + v.previousSecrets;
    secrets := [];
    for i := 0 to |values|
      invariant forall s :: s in secrets <==> exists t :: t in values[..i] && !Blank(t) && s == Trim(t)
    {
      var value := Trim(values[i]);
      assert values[..i + 1] == values[..i] + [values[i]];
      if value == "" {
        continue;
      }
      secrets := secrets + [value];
    }
    assert values[..|values|] == values;
  }

  method MatchesSignature(secrets: seq<string>, eventID: string, timestamp: int, payload: string, signatures: seq<string>,
                          digest: Digest)
    returns (ok: bool)
    ensures ok <==> exists s :: s in secrets && digest(s, eventID, timestamp, payload) in signatures
  {
    for i := 0 to |secrets|
      invariant forall k :: 0 <= k < i ==> digest(secrets[k], eventID, timestamp, payload) !in signatures
    {
      var expected := digest(secrets[i], eventID, timestamp, payload);
      for j := 0 to |signatures|
        invariant expected !in signatures[..j]
      {
        if signatures[j] == expected {
          return true;
        }
      }
      assert signatures[..|signatures|] == signatures;
    }
    ok := false;
  }

  /** Everything a request must satisfy before the replay store is asked. */
  ghost predicate Authentic(v: Verifier, r: Request, now: int, digest: Digest) {
    && !Blank(v.provider) && !Blank(r.eventID) && r.stampGiven && r.signatureGiven
    && Signed(v, r, digest)
    && InWindow(r.timestamp.value, now, Tolerance(v))
  }

  predicate HasSecret(v: Verifier) {
    !Blank(v.currentSecret) || exists s :: s in v.previousSecrets && !Blank(s)
  }

  /** The first requirement that fails is the one reported. */
  ghost predicate Explains(v: Verifier, r: Request, now: int, digest: Digest, e: WebhookError) {
    if Blank(v.provider) then e == ProviderMissing
    else if !HasSecret(v) then e == SecretMissing
    else if Blank(r.eventID) then e == EventIDMissing
    else if !r.stampGiven then e == TimestampMissing
    else if !r.signatureGiven then e == SignatureMissing
    else if r.timestamp.None? then e == TimestampInvalid
    else if !InWindow(r.timestamp.value, now, Tolerance(v)) then e == OutOfWindow
    else !Signed(v, r, digest) && e == SignatureInvalid
  }

  /** The checks before the replay store: they pass exactly for an authentic request. */
  method Authenticate(v: Verifier, r: Request, now: int, digest: Digest) returns (problem: Option<WebhookError>)
    ensures problem.None? <==> Authentic(v, r, now, digest)
    ensures problem.Some? ==> Explains(v, r, now, digest, problem.value)
  {
    hide Trim, IsSpace;
    var provider := Trim(v.provider);
    if provider == "" {
      return Some(ProviderMissing);
    }
    var secrets := Secrets(v);
    if secrets == [] {
      NoSecretNoSignature(v, r, secrets, digest);
      return Some(SecretMissing);
    }
    assert secrets[0] in secrets;
    var eventID := Trim(r.eventID);
    if eventID == "" {
      return Some(EventIDMissing);
    }
    if !r.stampGiven {
      return Some(TimestampMissing);
    }
    if !r.signatureGiven {
      return Some(SignatureMissing);
    }
    if r.timestamp.None? {
      return Some(TimestampInvalid);
    }
    var timestamp := r.timestamp.value;
    var tolerance := if v.tolerance == 0 then DEFAULT_TOLERANCE else v.tolerance;
    if timestamp < now - tolerance || timestamp > now + tolerance {
      return Some(OutOfWindow);
    }
    SignedMeansMatched(v, r, secrets, digest);
    if |r.signatures| == 0 {
      return Some(SignatureInvalid);
    }
    var matches := MatchesSignature(secrets, eventID, timestamp, r.payload, r.signatures, digest);
    problem := if matches then None else Some(SignatureInvalid);
  }

  /** One use of a verifier. */
  datatype Call = Call(verifier: Verifier, request: Request, now: int)

  /** What a call does to the replay store, and whether the request is verified. */
  ghost function Answered(seen: map<string, int>, c: Call, digest: Digest): (r: (map<string, int>, bool)) {
    if !Authentic(c.verifier, c.request, c.now, digest) then (seen, false)
    else Admit(seen, KeyOf(c), c.now, Expiry(c))
  }

  function KeyOf(c: Call): (k: string) {
    ReplayKey(Trim(c.verifier.provider), Trim(c.request.eventID))
  }

  function Expiry(c: Call): (t: int) {
    c.now + ReplayTTL(c.verifier)
  }

  /** A request is verified exactly if it is authentic and its key is not live; anything refused before
      the replay store leaves the store alone. */
  method Verify(v: Verifier, r: Request, now: int, digest: Digest, store: MemoryReplayStore) returns (o: Outcome)
    modifies store
    ensures (store.seen, o.Verified?) == Answered(old(store.seen), Call(v, r, now), digest)
    ensures !Authentic(v, r, now, digest) ==> o.Refused? && Explains(v, r, now, digest, o.error)
    ensures Authentic(v, r, now, digest) && o.Refused? ==> o.error == AlreadyAccepted
    ensures o.Verified? ==> r.timestamp == Some(o.timestamp)
    ensures o.Verified? ==> o == Verified(Trim(v.provider), Trim(r.eventID), o.timestamp, now, now + ReplayTTL(v))
  {
    hide Authentic, Explains, Admit, Trim;
    var problem := Authenticate(v, r, now, digest);
    if problem.Some? {
      return Refused(problem.value);
    }
    AuthenticIsStamped(v, r, now, digest);
    var provider, eventID := Trim(v.provider), Trim(r.eventID);
    var replayTTL := if v.replayTTL == 0 then DEFAULT_REPLAY_TTL else v.replayTTL;
    var accepted := store.RecordWebhook(provider, eventID, now, now + replayTTL);
    if !accepted {
      return Refused(AlreadyAccepted);
    }
    o := Verified(provider, eventID, r.timestamp.value, now, now + replayTTL);
  }

  lemma AuthenticIsStamped(v: Verifier, r: Request, now: int, digest: Digest)
    requires Authentic(v, r, now, digest)
    ensures r.timestamp.Some?
  {
  }

  lemma NoSecretNoSignature(v: Verifier, r: Request, secrets: seq<string>, digest: Digest)
    requires secrets == []
    requires forall s :: s in secrets <==> exists t :: t in [v.currentSecret] + v.previousSecrets && !Blank(t) && s == Trim(t)
    ensures !HasSecret(v) && !Signed(v, r, digest)
  {
    forall t | t in [v.currentSecret] + v.previousSecrets
      ensures Blank(t)
    {
      assert Trim(t) !in secrets;
    }
    assert v.currentSecret in [v.currentSecret] + v.previousSecrets;
  }

  lemma SignedMeansMatched(v: Verifier, r: Request, secrets: seq<string>, digest: Digest)
    requires r.timestamp.Some?
    requires forall s :: s in secrets <==> exists t :: t in [v.currentSecret] + v.previousSecrets && !Blank(t) && s == Trim(t)
    ensures Signed(v, r, digest) <==> exists s :: s in secrets && digest(s, Trim(r.eventID), r.timestamp.value, r.payload) in r.signatures
  {
    if Signed(v, r, digest) {
      var s, g :| s in [v.currentSecret] + v.previousSecrets && !Blank(s) && g in r.signatures
        && g == digest(Trim(s), Trim(r.eventID), r.timestamp.value, r.payload);
      assert Trim(s) in secrets;
    }
    if s :| s in secrets && digest(s, Trim(r.eventID), r.timestamp.value, r.payload) in r.signatures {
      var t :| t in [v.currentSecret] + v.previousSecrets && !Blank(t) && s == Trim(t);
    }
  }

  // ------------------------------------------------------------ whole traces

  /** The replay store after the first `n` calls, starting with an empty one. */
  ghost function Seen(calls: seq<Call>, digest: Digest, n: nat): (m: map<string, int>)
    requires n <= |calls|
  {
    if n == 0 then map[] else Answered(Seen(calls, digest, n - 1), calls[n - 1], digest).0
  }

  /** The i-th call verifies its request. */
  ghost predicate Accepted(calls: seq<Call>, digest: Digest, i: nat)
    requires i < |calls|
  {
    Answered(Seen(calls, digest, i), calls[i], digest).1
  }

  ghost predicate Ordered(calls: seq<Call>) {
    forall i, j :: 0 <= i < j < |calls| ==> calls[i].now <= calls[j].now
  }

  predicate SameEvent(c: Call, d: Call) {
    Trim(c.verifier.provider) == Trim(d.verifier.provider) && Trim(c.request.eventID) == Trim(d.request.eventID)
  }

  /** The longer provider name goes on with a NUL where the shorter one ends, and the event ID makes up for it. */
  predicate Spliced(provider: string, eventID: string, longer: string, rest: string) {
    provider + ['\0'] <= longer && eventID == longer[|provider| + 1..] + ['\0'] + rest
  }

  /** The calls name the same event, or two different ones that the store cannot tell apart. */
  predicate Confused(c: Call, d: Call) {
    var p, e, q, f := Trim(c.verifier.provider), Trim(c.request.eventID), Trim(d.verifier.provider), Trim(d.request.eventID);
    SameEvent(c, d) || Spliced(p, e, q, f) || Spliced(q, f, p, e)
  }

  lemma SplicedKeys(p: string, e: string, q: string, f: string)
    ensures |p| < |q| ==> (ReplayKey(p, e) == ReplayKey(q, f) <==> Spliced(p, e, q, f))
    ensures |p| == |q| ==> (ReplayKey(p, e) == ReplayKey(q, f) <==> p == q && e == f)
    ensures Spliced(p, e, q, f) ==> |p| < |q|
  {
    var k, l := ReplayKey(p, e), ReplayKey(q, f);
    assert k[..|p|] == p && k[|p|] == '\0' && k[|p| + 1..] == e;
    assert l[..|q|] == q && l[|q| + 1..] == f;
    if |p| < |q| {
      assert l[..|p| + 1] == q[..|p| + 1] && k[..|p| + 1] == p + ['\0'];
      assert l[|p| + 1..] == q[|p| + 1..] + ['\0'] + f;
      assert k == k[..|p| + 1] + k[|p| + 1..] && l == l[..|p| + 1] + l[|p| + 1..];
      assert p + ['\0'] <= q <==> p + ['\0'] == q[..|p| + 1];
    }
  }

  /** Two calls share a replay key iff they name the same event or one provider's name runs into the other's;
      providers without a NUL are never confused. */
  lemma KeysCollideExactlyWhen(c: Call, d: Call)
    ensures KeyOf(c) == KeyOf(d) <==> Confused(c, d)
    ensures '\0' !in Trim(c.verifier.provider) && '\0' !in Trim(d.verifier.provider) ==> (Confused(c, d) <==> SameEvent(c, d))
  {
    var p, e, q, f := Trim(c.verifier.provider), Trim(c.request.eventID), Trim(d.verifier.provider), Trim(d.request.eventID);
    SplicedKeys(p, e, q, f);
    SplicedKeys(q, f, p, e);
    assert Spliced(p, e, q, f) ==> (p + ['\0'])[|p|] == q[|p|];
    assert Spliced(q, f, p, e) ==> (q + ['\0'])[|q|] == p[|q|];
  }

  /** What a call does to any key of the store. */
  lemma EntriesAfter(seen: map<string, int>, c: Call, digest: Digest, key: string)
    ensures var (after, accepted) := Answered(seen, c, digest);
      && (accepted ==> !(KeyOf(c) in seen && seen[KeyOf(c)] > c.now))
      && (accepted && key == KeyOf(c) ==> key in after && after[key] == Expiry(c))
      && (key != KeyOf(c) || !accepted ==> (key in after ==> key in seen && after[key] == seen[key]))
      && (key != KeyOf(c) || !accepted ==> (key in seen && seen[key] > c.now ==> key in after && after[key] == seen[key]))
  {
    hide Authentic, KeyOf, Expiry;
  }

  /** An accepted key keeps its expiry until the clock reaches it. */
  lemma {:induction false} EntryStays(calls: seq<Call>, digest: Digest, i: nat, n: nat)
    requires i < n <= |calls| && Accepted(calls, digest, i)
    requires forall k :: i < k < n ==> calls[k].now < Expiry(calls[i])
    ensures KeyOf(calls[i]) in Seen(calls, digest, n)
    ensures Seen(calls, digest, n)[KeyOf(calls[i])] == Expiry(calls[i])
  {
    hide Answered, KeyOf, Expiry;
    EntriesAfter(Seen(calls, digest, n - 1), calls[n - 1], digest, KeyOf(calls[i]));
    if n > i + 1 {
      EntryStays(calls, digest, i, n - 1);
      assert calls[n - 1].now < Expiry(calls[i]);
    }
  }

  /** Every entry was made by an accepted call. */
  lemma {:induction false} EntryIsAccepted(calls: seq<Call>, digest: Digest, n: nat, key: string) returns (j: nat)
    requires n <= |calls| && key in Seen(calls, digest, n)
    ensures j < n && Accepted(calls, digest, j) && KeyOf(calls[j]) == key && Expiry(calls[j]) == Seen(calls, digest, n)[key]
  {
    hide Answered, KeyOf, Expiry;
    EntriesAfter(Seen(calls, digest, n - 1), calls[n - 1], digest, key);
    if Accepted(calls, digest, n - 1) && KeyOf(calls[n - 1]) == key {
      j := n - 1;
    } else {
      j := EntryIsAccepted(calls, digest, n - 1, key);
    }
  }

  /** On every clock-ordered sequence of calls, an authentic request is verified exactly if every earlier
      verified request for the same event (or one confused with it) is no longer remembered. */
  lemma VerifiedExactlyWhen(calls: seq<Call>, digest: Digest, i: nat)
    requires Ordered(calls) && i < |calls|
    ensures Accepted(calls, digest, i) <==>
      && Authentic(calls[i].verifier, calls[i].request, calls[i].now, digest)
      && forall j :: 0 <= j < i && Accepted(calls, digest, j) && Confused(calls[j], calls[i]) ==>
           calls[j].now + ReplayTTL(calls[j].verifier) <= calls[i].now
  {
    hide Authentic, ReplayKey, Confused, Accepted, Seen;
    var c, seen := calls[i], Seen(calls, digest, i);
    AcceptedIs(calls, digest, i);
    forall j | 0 <= j < i && Accepted(calls, digest, j) && Confused(calls[j], c) && Expiry(calls[j]) > c.now
      ensures KeyOf(c) in seen && seen[KeyOf(c)] > c.now
    {
      KeysCollideExactlyWhen(calls[j], c);
      EntryStays(calls, digest, j, i);
    }
    if KeyOf(c) in seen && seen[KeyOf(c)] > c.now {
      var j := EntryIsAccepted(calls, digest, i, KeyOf(c));
      KeysCollideExactlyWhen(calls[j], c);
    }
  }

  lemma AcceptedIs(calls: seq<Call>, digest: Digest, i: nat)
    requires i < |calls|
    ensures var c, seen := calls[i], Seen(calls, digest, i);
      Accepted(calls, digest, i) <==>
        Authentic(c.verifier, c.request, c.now, digest) && !(KeyOf(c) in seen && seen[KeyOf(c)] > c.now)
  {
  }

  // ------------------------------------------------------------ at most once

  /** Every call uses this verifier. */
  ghost predicate By(v: Verifier, calls: seq<Call>) {
    forall i :: 0 <= i < |calls| ==> calls[i].verifier == v
  }

  predicate SameStamp(c: Call, d: Call) {
    c.request.timestamp == d.request.timestamp
  }

  /** No event is verified twice with one timestamp. */
  ghost predicate AtMostOnce(calls: seq<Call>, digest: Digest) {
    forall i, j :: 0 <= i < j < |calls| && SameEvent(calls[i], calls[j]) && SameStamp(calls[i], calls[j]) ==>
      !(Accepted(calls, digest, i) && Accepted(calls, digest, j))
  }

  lemma LongMemoryIsSafe(v: Verifier, calls: seq<Call>, digest: Digest)
    requires By(v, calls) && Ordered(calls) && (Tolerance(v) < 0 || ReplayTTL(v) > 2 * Tolerance(v))
    ensures AtMostOnce(calls, digest)
  {
    forall i, j | 0 <= i < j < |calls| && SameEvent(calls[i], calls[j])
      && SameStamp(calls[i], calls[j]) && Accepted(calls, digest, i)
      ensures !Accepted(calls, digest, j)
    {
      if Accepted(calls, digest, j) {
        VerifiedExactlyWhen(calls, digest, i);
        VerifiedExactlyWhen(calls, digest, j);
        assert Confused(calls[i], calls[j]);
        InsideTheWindow(calls[i], digest);
        InsideTheWindow(calls[j], digest);
      }
    }
  }

  lemma InsideTheWindow(c: Call, digest: Digest)
    requires Authentic(c.verifier, c.request, c.now, digest)
    ensures c.request.timestamp.Some?
    ensures var t := c.request.timestamp.value; c.now - Tolerance(c.verifier) <= t <= c.now + Tolerance(c.verifier)
  {
  }

  lemma SomeSecret(v: Verifier) returns (s: string)
    requires HasSecret(v)
    ensures s in [v.currentSecret] + v.previousSecrets && !Blank(s)
  {
    hide Blank;
    var secrets := [v.currentSecret] + v.previousSecrets;
    assert secrets[0] == v.currentSecret && secrets[0] in secrets;
    if !Blank(v.currentSecret) {
      s := v.currentSecret;
    } else {
      s :| s in v.previousSecrets && !Blank(s);
    }
  }

  /** A signed request for event "e" stamped zero. */
  lemma SignedRequest(v: Verifier, digest: Digest, now: int) returns (r: Request)
    requires !Blank(v.provider) && HasSecret(v) && -Tolerance(v) <= now <= Tolerance(v)
    ensures r.timestamp == Some(0) && r.eventID == "e" && Authentic(v, r, now, digest)
  {
    hide Blank, Trim, HasSecret;
    var s := SomeSecret(v);
    BlankExactlyWhen("e");
    assert !IsSpace("e"[0]);
    var g := digest(Trim(s), Trim("e"), 0, "");
    r := Request("e", true, Some(0), true, [g], "");
    assert r.signatures[0] == g && g in r.signatures;
    assert InWindow(0, now, Tolerance(v));
    assert Signed(v, r, digest);
  }

  lemma ShortMemoryRepeats(v: Verifier, digest: Digest) returns (calls: seq<Call>)
    requires !Blank(v.provider) && HasSecret(v) && 0 <= Tolerance(v) && ReplayTTL(v) <= 2 * Tolerance(v)
    ensures By(v, calls) && Ordered(calls) && !AtMostOnce(calls, digest)
  {
    hide Authentic, HasSecret;
    var first := SignedRequest(v, digest, -Tolerance(v));
    var second := SignedRequest(v, digest, Tolerance(v));
    calls := [Call(v, first, -Tolerance(v)), Call(v, second, Tolerance(v))];
    VerifiedExactlyWhen(calls, digest, 0);
    VerifiedExactlyWhen(calls, digest, 1);
    assert SameEvent(calls[0], calls[1]);
    assert SameStamp(calls[0], calls[1]);
  }

  /** A verifier that can verify anything at all verifies each signed event at most once, on every
      clock-ordered sequence of calls, exactly if it remembers events for longer than twice its tolerance. */
  lemma AcceptedOnceExactlyWhen(v: Verifier, digest: Digest)
    requires !Blank(v.provider) && HasSecret(v)
    ensures (forall calls :: By(v, calls) && Ordered(calls) ==> AtMostOnce(calls, digest)) <==>
      (Tolerance(v) < 0 || ReplayTTL(v) > 2 * Tolerance(v))
  {
    hide AtMostOnce, By, Ordered;
    if Tolerance(v) < 0 || ReplayTTL(v) > 2 * Tolerance(v) {
      forall calls | By(v, calls) && Ordered(calls)
        ensures AtMostOnce(calls, digest)
      {
        LongMemoryIsSafe(v, calls, digest);
      }
    } else {
      var calls := ShortMemoryRepeats(v, digest);
    }
  }

  /** The defaults remember long enough. */
  lemma DefaultsAcceptOnce(v: Verifier, calls: seq<Call>, digest: Digest)
    requires v.tolerance == 0 && v.replayTTL == 0 && By(v, calls) && Ordered(calls)
    ensures AtMostOnce(calls, digest)
  {
    LongMemoryIsSafe(v, calls, digest);
  }

  // ------------------------------------------------------------ cleaning up

  /** A store that never forgets an entry, only overwrites it. */
  ghost function Hoard(calls: seq<Call>, digest: Digest, n: nat): (m: map<string, int>)
    requires n <= |calls|
  {
    if n == 0 then map[]
    else
      var before, c := Hoard(calls, digest, n - 1), calls[n - 1];
      if Authentic(c.verifier, c.request, c.now, digest) && !Fresh(before, c) then before[KeyOf(c) := Expiry(c)] else before
  }

  /** The key has an entry that has not expired. */
  predicate Fresh(seen: map<string, int>, c: Call) {
    KeyOf(c) in seen && seen[KeyOf(c)] > c.now
  }

  /** Later, fewer of the same entries are live. */
  lemma LiveLater(seen: map<string, int>, now: int, later: int)
    requires now <= later
    ensures Live(Live(seen, now), later) == Live(seen, later)
  {
  }

  lemma LivePut(seen: map<string, int>, key: string, expires: int, now: int)
    ensures Live(seen[key := expires], now) == if expires > now then Live(seen, now)[key := expires] else Live(seen, now) - {key}
  {
  }

  lemma {:induction false} SameLiveEntries(calls: seq<Call>, digest: Digest, n: nat, now: int)
    requires Ordered(calls) && n <= |calls| && (n > 0 ==> calls[n - 1].now <= now)
    ensures Live(Seen(calls, digest, n), now) == Live(Hoard(calls, digest, n), now)
  {
    if n > 0 {
      var c := calls[n - 1];
      assert n > 1 ==> calls[n - 2].now <= c.now;
      SameLiveEntries(calls, digest, n - 1, c.now);
      var s, h := Seen(calls, digest, n - 1), Hoard(calls, digest, n - 1);
      assert Fresh(h, c) <==> KeyOf(c) in Live(h, c.now);
      hide Live, Authentic, ReplayKey;
      LiveLater(s, c.now, now);
      LiveLater(h, c.now, now);
      LivePut(Live(s, c.now), KeyOf(c), Expiry(c), now);
      LivePut(h, KeyOf(c), Expiry(c), now);
    }
  }

  /** Dropping expired entries never changes a decision. */
  lemma CleaningUpDecidesNothing(calls: seq<Call>, digest: Digest, i: nat)
    requires Ordered(calls) && i < |calls|
    ensures var c := calls[i];
      Accepted(calls, digest, i) <==>
        Authentic(c.verifier, c.request, c.now, digest) && !Fresh(Hoard(calls, digest, i), c)
  {
    hide Authentic, ReplayKey;
    SameLiveEntries(calls, digest, i, calls[i].now);
    assert Fresh(Hoard(calls, digest, i), calls[i]) <==> KeyOf(calls[i]) in Live(Hoard(calls, digest, i), calls[i].now);
  }
}
