/**
 The request loop of the Graph client: which replies are retried, how long it sleeps before each
 retry, and what it finally reports, for every sequence of replies.
 */
module GraphRetry {
  import opened Basics

  datatype Verb = Get | Head | Options | Other

  /** What a Retry-After header reads as. A date is given by how far ahead of the client's clock it lies. */
  datatype Header = Absent | Number(value: real) | NotFinite | Date(ahead: real) | Unreadable

  /** One attempt: a transport error, a body over the response limit, or a response. */
  datatype Reply = Failed | Oversized | Replied(status: int, retryAfter: Header)

  datatype Outcome = Answered(status: int) | ApiError(status: int) | TransportError | TooLarge | Exhausted

  datatype Settings = Settings(maxRetries: nat, backoff: real, cap: real) {
    predicate Valid() {
      0.0 <= backoff && 0.0 < cap
    }
  }

  const RETRYABLE := {408, 429, 500, 502, 503, 504}
  const THROTTLED := 429

  predicate RetrySafe(verb: Verb) {
    verb in {Get, Head, Options}
  }

  function Max(x: real, y: real): real {
    if x < y then y else x
  }

  function Min(x: real, y: real): real {
    if x < y then x else y
  }

  function Doubled(x: real, n: nat): (r: real)
    ensures 0.0 <= x ==> x <= r
  {
    if n == 0 then x else 2.0 * Doubled(x, n - 1)
  }

  function RetryAfter(h: Header): Option<real> {
    match h
    case Number(value) => Some(Max(0.0, value))
    case Date(ahead) => Some(Max(0.0, ahead))
    case _ => None
  }

  function Backoff(s: Settings, attempt: nat): real {
    Min(Doubled(s.backoff, attempt), s.cap)
  }

  function RetryDelay(s: Settings, h: Header, attempt: nat): real {
    match RetryAfter(h)
    case Some(delay) => delay
    case None => Backoff(s, attempt)
  }

  // ----- the loop -----

  /** The loop over attempts. `replies` holds what each attempt would meet; `sleeps` records the waits in order. */
  method Request(s: Settings, verb: Verb, replies: seq<Reply>) returns (sends: nat, sleeps: seq<real>, outcome: Outcome)
    requires s.Valid() && |replies| == s.maxRetries + 1
    ensures Ran(s, verb, replies, sends, sleeps, outcome)
    // The limit: no reply can wear the loop out.
    ensures 1 <= sends <= s.maxRetries + 1 && outcome != Exhausted
    // A request that may have taken effect goes out again only when the service itself turned it away.
    ensures verb == Other ==> forall i :: 0 <= i < sends - 1 ==> replies[i].Replied? && replies[i].status == 429
    // Each sleep is exactly what the reply before it asked for, or nothing if that is past; else it is the backoff.
    ensures |sleeps| == sends - 1 && forall i :: 0 <= i < |sleeps| ==> 0.0 <= sleeps[i] <= s.cap
    ensures forall i :: 0 <= i < |sleeps| && replies[i].Replied? && replies[i].retryAfter.Number? ==>
              replies[i].retryAfter.value <= sleeps[i] && (sleeps[i] == 0.0 || sleeps[i] == replies[i].retryAfter.value)
    ensures forall i :: 0 <= i < |sleeps| && replies[i].Replied? && replies[i].retryAfter.Date? ==>
              replies[i].retryAfter.ahead <= sleeps[i] && (sleeps[i] == 0.0 || sleeps[i] == replies[i].retryAfter.ahead)
    ensures forall i | 0 <= i < |sleeps|
              && (replies[i].Replied? ==> !replies[i].retryAfter.Number? && !replies[i].retryAfter.Date?) ::
              sleeps[i] <= Doubled(s.backoff, i) && (sleeps[i] == s.cap || sleeps[i] == Doubled(s.backoff, i))
    // A wait that the cap forbids ends the request at once, in the error of that reply.
    ensures forall i | 0 <= i < sends && replies[i].Replied? && replies[i].status in {408, 429, 500, 502, 503, 504}
              && (|| (replies[i].retryAfter.Number? && replies[i].retryAfter.value > s.cap)
                  || (replies[i].retryAfter.Date? && replies[i].retryAfter.ahead > s.cap)) ::
              sends == i + 1 && outcome == ApiError(replies[i].status)
    // Success is an accepted attempt within the limit, after replies that are all worth retrying.
    ensures outcome.Answered? <==>
              exists k :: 0 <= k < |replies| && Verdict(replies[k]).Answered? && RetriedUpTo(s, verb, replies, k)
  {
    sends, sleeps := 0, [];
    for attempt := 0 to s.maxRetries + 1
      invariant sends == attempt == |sleeps|
      invariant attempt <= s.maxRetries
      invariant forall i :: 0 <= i < attempt ==> Retried(s, verb, replies[i]) && Waited(s, replies[i], i, sleeps[i])
    {
      sends := sends + 1;
      match replies[attempt] {
        case Failed => {
          if !RetrySafe(verb) || attempt >= s.maxRetries {
            return sends, sleeps, TransportError;
          }
          sleeps := sleeps + [Backoff(s, attempt)];
        }
        case Oversized => {
          return sends, sleeps, TooLarge;
        }
        case Replied(status, header) => {
          if status in RETRYABLE && (RetrySafe(verb) || status == THROTTLED) && attempt < s.maxRetries {
            var delay := RetryDelay(s, header, attempt);
            if delay > s.cap {
              return sends, sleeps, ApiError(status);
            }
            sleeps := sleeps + [delay];
          } else if status >= 300 {
            return sends, sleeps, ApiError(status);
          } else {
            return sends, sleeps, Answered(status);
          }
        }
      }
    }
    assert false;
    outcome := Exhausted;
  }

  // ----- what a run is -----

  /** What a reply asks the client to wait; nothing if its header is absent or reads as no time. */
  function Asked(r: Reply): Option<real> {
    match r
    case Replied(_, Number(value)) => Some(value)
    case Replied(_, Date(ahead)) => Some(ahead)
    case _ => None
  }

  /** A reply that is worth another attempt, if there is one left. */
  predicate Retried(s: Settings, verb: Verb, r: Reply) {
    match r
    case Failed => verb != Other
    case Oversized => false
    case Replied(status, _) =>
      && (status == 429 || (verb != Other && status in {408, 500, 502, 503, 504}))
      && (Asked(r).Some? ==> Asked(r).value <= s.cap)
  }

  predicate RetriedUpTo(s: Settings, verb: Verb, replies: seq<Reply>, n: nat)
    requires n <= |replies|
  {
    forall i :: 0 <= i < n ==> Retried(s, verb, replies[i])
  }

  /** The wait after a reply: what it asks, but never less than nothing; else the backoff, up to the cap. */
  predicate Waited(s: Settings, r: Reply, attempt: nat, sleep: real) {
    match Asked(r)
    case Some(asked) => sleep == if asked < 0.0 then 0.0 else asked
    case None => sleep == if s.cap < Doubled(s.backoff, attempt) then s.cap else Doubled(s.backoff, attempt)
  }

  function Verdict(r: Reply): Outcome {
    match r
    case Failed => TransportError
    case Oversized => TooLarge
    case Replied(status, _) => if status >= 300 then ApiError(status) else Answered(status)
  }

  /** A sleep between any two sends, each after a reply worth retrying; the verdict is that of the last reply. */
  ghost predicate Ran(s: Settings, verb: Verb, replies: seq<Reply>, sends: nat, sleeps: seq<real>, outcome: Outcome) {
    && 1 <= sends <= |replies| == s.maxRetries + 1
    && |sleeps| == sends - 1
    && (forall i :: 0 <= i < |sleeps| ==> Retried(s, verb, replies[i]) && Waited(s, replies[i], i, sleeps[i]))
    && (sends == s.maxRetries + 1 || !Retried(s, verb, replies[sends - 1]))
    && outcome == Verdict(replies[sends - 1])
  }

  // ----- what holds of every run -----

  /** The replies leave no choice: there is one run, so the loop above is fully described. */
  lemma RunIsUnique(s: Settings, verb: Verb, replies: seq<Reply>,
                    sends: nat, sleeps: seq<real>, outcome: Outcome,
                    sends': nat, sleeps': seq<real>, outcome': Outcome)
    requires Ran(s, verb, replies, sends, sleeps, outcome) && Ran(s, verb, replies, sends', sleeps', outcome')
    ensures sends == sends' && sleeps == sleeps' && outcome == outcome'
  {}

  function Sum(xs: seq<real>): real {
    if xs == [] then 0.0 else Sum(xs[..|xs| - 1]) + xs[|xs| - 1]
  }

  lemma {:induction false} SumAtMost(xs: seq<real>, n: nat, bound: real)
    requires |xs| <= n && 0.0 <= bound && forall i :: 0 <= i < |xs| ==> xs[i] <= bound
    ensures Sum(xs) <= Times(n, bound)
  {
    if xs != [] {
      SumAtMost(xs[..|xs| - 1], n - 1, bound);
    }
  }

  /** The time asleep is at most the retries times the cap, whatever the service asks for. */
  lemma TotalSleepIsBounded(s: Settings, verb: Verb, replies: seq<Reply>, sends: nat, sleeps: seq<real>,
                            outcome: Outcome)
    requires s.Valid() && Ran(s, verb, replies, sends, sleeps, outcome)
    ensures Sum(sleeps) <= Times(s.maxRetries, s.cap)
  {
    SumAtMost(sleeps, s.maxRetries, s.cap);
  }

  /** The backoff starts at the configured delay and doubles with each attempt, so its sum is geometric. */
  lemma {:induction false} GeometricSum(xs: seq<real>, x: real)
    ensures Doubled(x, 0) == x && Doubled(x, |xs| + 1) == Doubled(x, |xs|) + Doubled(x, |xs|)
    ensures (forall i :: 0 <= i < |xs| ==> xs[i] <= Doubled(x, i)) ==> Sum(xs) <= Doubled(x, |xs|) - x
    ensures (forall i :: 0 <= i < |xs| ==> xs[i] == Doubled(x, i)) ==> Sum(xs) == Doubled(x, |xs|) - x
  {
    if xs != [] {
      GeometricSum(xs[..|xs| - 1], x);
    }
  }

  /**
   Left to its own schedule, the loop sleeps at most what one further doubling would have added, and exactly that
   if the cap never shortens a wait.
   */
  lemma BackoffTotal(s: Settings, verb: Verb, replies: seq<Reply>, sends: nat, sleeps: seq<real>, outcome: Outcome)
    requires s.Valid() && Ran(s, verb, replies, sends, sleeps, outcome)
    requires forall i :: 0 <= i < |sleeps| && replies[i].Replied? ==>
               !replies[i].retryAfter.Number? && !replies[i].retryAfter.Date?
    ensures Sum(sleeps) <= Doubled(s.backoff, sends - 1) - s.backoff
    ensures (forall i :: 0 <= i < |sleeps| ==> Doubled(s.backoff, i) <= s.cap) ==>
              Sum(sleeps) == Doubled(s.backoff, sends - 1) - s.backoff
  {
    GeometricSum(sleeps, s.backoff);
  }
}
