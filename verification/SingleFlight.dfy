/**
 * Concurrent callers of one client's `getAuthToken`. The promise in `isAuthenticating` is shared:
 * whoever finds it set waits for the fetch in flight instead of starting another.
 */
module SingleFlight {
  import opened Options

  /** A token is known by the fetch that obtained it; other pods write tokens of their own. */
  datatype Token = FromFetch(fetch: nat) | FromElsewhere(n: nat)

  /** A fetch waits for the courier, then for its cache write, then settles its promise. */
  datatype Fetch =
    | Posting
    | Writing(ok: bool)
    | Written(ok: bool)
    | Settled(ok: bool, at: nat)

  datatype Reply = Granted(token: Token) | Refused

  datatype Caller =
    | Reading(calledAt: nat)
    | HasRead(cached: Option<Token>, calledAt: nat)
    | Joined(fetch: nat, forced: bool, calledAt: nat)
    | GotCached(token: Token)
    | GotFetched(fetch: nat, forced: bool, calledAt: nat, reply: Reply)

  /** `current` is `isAuthenticating`; `clock` counts moves. */
  datatype World = World(
    clock: nat, cache: Option<Token>, current: Option<nat>, fetches: seq<Fetch>, callers: map<nat, Caller>)

  datatype Move =
    | Call(c: nat, force: bool)
    | Read(c: nat)
    | Resume(c: nat)
    | Post(f: nat, ok: bool)
    | Write(f: nat, effective: bool)
    | Settle(f: nat)
    | Deliver(c: nat)
    | Foreign(cache: Option<Token>)

  const START := World(0, None, None, [], map[])

  predicate Possible(w: World, m: Move) {
    match m
    case Call(c, _) => c !in w.callers
    case Read(c) => c in w.callers && w.callers[c].Reading?
    case Resume(c) => c in w.callers && w.callers[c].HasRead?
    case Post(f, _) => f < |w.fetches| && w.fetches[f].Posting?
    case Write(f, _) => f < |w.fetches| && w.fetches[f].Writing?
    case Settle(f) => f < |w.fetches| && w.fetches[f].Written?
    case Deliver(c) =>
      && c in w.callers && w.callers[c].Joined? && w.callers[c].fetch < |w.fetches|
      && w.fetches[w.callers[c].fetch].Settled?
    case Foreign(cache) => cache == None || cache.value.FromElsewhere?
  }

  /** The rest of getAuthToken: wait for the login in flight if there is one, else start one and set the flag. */
  function JoinOrStart(w: World, c: nat, forced: bool, calledAt: nat): World {
    match w.current
    case Some(f) => w.(callers := w.callers[c := Joined(f, forced, calledAt)])
    case None =>
      var f := |w.fetches|;
      w.(current := Some(f), fetches := w.fetches + [Posting], callers := w.callers[c := Joined(f, forced, calledAt)])
  }

  function ReplyOf(f: nat, ok: bool): Reply {
    if ok then Granted(FromFetch(f)) else Refused
  }

  function Act(w: World, m: Move): World
    requires Possible(w, m)
  {
    match m
    case Call(c, force) =>
      if force then JoinOrStart(w, c, true, w.clock) else w.(callers := w.callers[c := Reading(w.clock)])
    case Read(c) =>
      w.(callers := w.callers[c := HasRead(w.cache, w.callers[c].calledAt)])
    case Resume(c) =>
      var caller := w.callers[c];
      if caller.cached.Some? then w.(callers := w.callers[c := GotCached(caller.cached.value)])
      else JoinOrStart(w, c, false, caller.calledAt)
    case Post(f, ok) =>
      w.(fetches := w.fetches[f := Writing(ok)])
    case Write(f, effective) =>
      // cache.set after a login, cache.del after a failed one; the cache may drop either
      var ok := w.fetches[f].ok;
      w.(fetches := w.fetches[f := Written(ok)],
         cache := if !effective then w.cache else if ok then Some(FromFetch(f)) else None)
    case Settle(f) =>
      w.(fetches := w.fetches[f := Settled(w.fetches[f].ok, w.clock)], current := None)
    case Deliver(c) =>
      var caller := w.callers[c];
      w.(callers := w.callers[c := GotFetched(caller.fetch, caller.forced, caller.calledAt,
                                              ReplyOf(caller.fetch, w.fetches[caller.fetch].ok))])
    case Foreign(cache) =>
      w.(cache := cache)
  }

  function Apply(w: World, m: Move): World {
    if !Possible(w, m) then w else Act(w, m).(clock := w.clock + 1)
  }

  function Run(w: World, moves: seq<Move>): World
    decreases |moves|
  {
    if moves == [] then w else Run(Apply(w, moves[0]), moves[1..])
  }

  function InFlight(fetches: seq<Fetch>): nat {
    if fetches == [] then 0
    else InFlight(fetches[..|fetches| - 1]) + if fetches[|fetches| - 1].Settled? then 0 else 1
  }

  predicate CallerSound(w: World, caller: Caller) {
    match caller
    case Joined(f, _, calledAt) =>
      f < |w.fetches| && calledAt < w.clock && (w.fetches[f].Settled? ==> w.fetches[f].at > calledAt)
    case GotFetched(f, _, calledAt, reply) =>
      f < |w.fetches| && w.fetches[f].Settled? && w.fetches[f].at > calledAt && reply == ReplyOf(f, w.fetches[f].ok)
    case Reading(calledAt) => calledAt < w.clock
    case HasRead(_, calledAt) => calledAt < w.clock
    case GotCached(_) => true
  }

  /** The flag points at the one fetch in flight. */
  predicate FlagSound(w: World) {
    && (w.current.Some? ==> w.current.value < |w.fetches| && !w.fetches[w.current.value].Settled?)
    && (forall f :: 0 <= f < |w.fetches| && w.current != Some(f) ==> w.fetches[f].Settled?)
  }

  ghost predicate Inv(w: World) {
    FlagSound(w) && forall c :: c in w.callers ==> CallerSound(w, w.callers[c])
  }

  lemma FlagStaysSound(w: World, m: Move)
    requires FlagSound(w)
    ensures FlagSound(Apply(w, m))
  {
  }

  lemma CallerStaysSound(w: World, m: Move, c: nat)
    requires FlagSound(w) && c in Apply(w, m).callers
    requires c in w.callers ==> CallerSound(w, w.callers[c])
    ensures CallerSound(Apply(w, m), Apply(w, m).callers[c])
  {
  }

  lemma ApplyInv(w: World, m: Move)
    requires Inv(w)
    ensures Inv(Apply(w, m))
  {
    hide Apply, FlagSound, CallerSound;
    FlagStaysSound(w, m);
    forall c | c in Apply(w, m).callers
      ensures CallerSound(Apply(w, m), Apply(w, m).callers[c])
    {
      CallerStaysSound(w, m, c);
    }
  }

  lemma {:induction false} RunInv(w: World, moves: seq<Move>)
    requires Inv(w)
    ensures Inv(Run(w, moves))
    decreases |moves|
  {
    if moves != [] {
      ApplyInv(w, moves[0]);
      RunInv(Apply(w, moves[0]), moves[1..]);
    }
  }

  lemma {:induction false} InFlightCount(fetches: seq<Fetch>, current: Option<nat>)
    requires current.Some? ==> current.value < |fetches| && !fetches[current.value].Settled?
    requires forall f :: 0 <= f < |fetches| && current != Some(f) ==> fetches[f].Settled?
    ensures InFlight(fetches) == if current.Some? then 1 else 0
  {
    if fetches != [] {
      var last := |fetches| - 1;
      InFlightCount(fetches[..last], if current == Some(last) then None else current);
    }
  }

  // Main results, for any callers in any interleaving

  /** One login in flight exactly when `isAuthenticating` is set, none otherwise. */
  lemma SingleLogin(moves: seq<Move>)
    ensures var w := Run(START, moves); InFlight(w.fetches) == if w.current.Some? then 1 else 0
  {
    RunInv(START, moves);
    InFlightCount(Run(START, moves).fetches, Run(START, moves).current);
  }

  /** A caller that waited got the outcome of the fetch it joined, and that fetch settled after the call. */
  lemma JoinersGetTheOutcome(moves: seq<Move>, c: nat)
    ensures var w := Run(START, moves);
            c in w.callers && w.callers[c].GotFetched? ==>
              var g := w.callers[c];
              && g.fetch < |w.fetches| && w.fetches[g.fetch].Settled?
              && g.reply == (if w.fetches[g.fetch].ok then Granted(FromFetch(g.fetch)) else Refused)
              && w.fetches[g.fetch].at > g.calledAt
  {
    RunInv(START, moves);
  }

  /** How a caller began, for as long as it is known. */
  predicate BeganForced(caller: Caller, at: nat) {
    (caller.Joined? || caller.GotFetched?) && caller.forced && caller.calledAt == at
  }

  lemma {:induction false} ForcedStaysForced(w: World, moves: seq<Move>, c: nat, at: nat)
    requires c in w.callers && BeganForced(w.callers[c], at)
    ensures var w' := Run(w, moves); c in w'.callers && BeganForced(w'.callers[c], at)
    decreases |moves|
  {
    if moves != [] {
      ForcedStaysForced(Apply(w, moves[0]), moves[1..], c, at);
    }
  }

  lemma {:induction false} RunSplit(w: World, before: seq<Move>, after: seq<Move>)
    ensures Run(w, before + after) == Run(Run(w, before), after)
    decreases |before|
  {
    if before == [] {
      assert before + after == after;
    } else {
      assert (before + after)[1..] == before[1..] + after;
      RunSplit(Apply(w, before[0]), before[1..], after);
    }
  }

  /** A forced refresh never yields a cached token, nor one from a fetch that had settled before the call. */
  lemma ForcedRefreshIsFresh(before: seq<Move>, c: nat, after: seq<Move>)
    requires c !in Run(START, before).callers
    ensures var at := Run(START, before).clock;
            var w := Run(START, before + [Call(c, true)] + after);
            && c in w.callers && !w.callers[c].GotCached?
            && (w.callers[c].GotFetched? ==>
                  var f := w.callers[c].fetch; f < |w.fetches| && w.fetches[f].Settled? && w.fetches[f].at > at)
  {
    var w0 := Run(START, before);
    var w1 := Apply(w0, Call(c, true));
    assert before + [Call(c, true)] + after == before + ([Call(c, true)] + after);
    RunSplit(START, before, [Call(c, true)] + after);
    assert ([Call(c, true)] + after)[1..] == after;
    ForcedStaysForced(w1, after, c, w0.clock);
    RunInv(START, before + [Call(c, true)] + after);
    assert CallerSound(Run(w1, after), Run(w1, after).callers[c]);
  }

  // What each way through getAuthToken leads to

  /** With no login in flight a forced refresh starts one, and its answer is the caller's and the cache's. */
  lemma LoginIsAnswered(w: World, c: nat, ok: bool)
    requires w.current == None && c !in w.callers
    ensures var f := |w.fetches|;
            var w1 := Apply(w, Call(c, true));
            var w2 := Apply(Apply(w1, Post(f, ok)), Write(f, true));
            var w3 := Apply(Apply(w2, Settle(f)), Deliver(c));
            && w1.current == Some(f) && w3.current == None && |w3.fetches| == f + 1
            && w3.cache == (if ok then Some(FromFetch(f)) else None)
            && w3.callers[c] == GotFetched(f, true, w.clock, if ok then Granted(FromFetch(f)) else Refused)
  {
  }

  /** With a login in flight nobody starts another: a forced caller and one that found no token wait for it. */
  lemma LoginIsJoined(w: World, c: nat, f: nat)
    requires w.current == Some(f)
    ensures c !in w.callers ==>
              var w' := Apply(w, Call(c, true));
              w'.fetches == w.fetches && w'.current == w.current && w'.callers[c] == Joined(f, true, w.clock)
    ensures c in w.callers && w.callers[c].HasRead? && w.callers[c].cached == None ==>
              var w' := Apply(w, Resume(c));
              && w'.fetches == w.fetches && w'.current == w.current
              && w'.callers[c] == Joined(f, false, w.callers[c].calledAt)
  {
  }

  /** A caller that finds a token takes it and starts nothing; one that finds none starts a login if none runs. */
  lemma CachedTokenIsUsed(w: World, c: nat)
    requires c !in w.callers
    ensures var w' := Apply(Apply(Apply(w, Call(c, false)), Read(c)), Resume(c));
            if w.cache.Some? then
              w'.fetches == w.fetches && w'.current == w.current && w'.callers[c] == GotCached(w.cache.value)
            else if w.current == None then
              && w'.fetches == w.fetches + [Posting] && w'.current == Some(|w.fetches|)
              && w'.callers[c] == Joined(|w.fetches|, false, w.clock)
            else w'.fetches == w.fetches && w'.callers[c] == Joined(w.current.value, false, w.clock)
  {
  }

  /** Nobody is stuck: a caller without an answer, or the login it waits for, can always go on. */
  lemma EveryCallerCanGoOn(moves: seq<Move>, c: nat)
    requires var w := Run(START, moves);
             c in w.callers && !w.callers[c].GotCached? && !w.callers[c].GotFetched?
    ensures var w := Run(START, moves);
            match w.callers[c]
            case Reading(_) => Possible(w, Read(c))
            case HasRead(_, _) => Possible(w, Resume(c))
            case Joined(f, _, _) =>
              || Possible(w, Post(f, true)) || Possible(w, Write(f, true))
              || Possible(w, Settle(f)) || Possible(w, Deliver(c))
  {
    hide Run;
    RunInv(START, moves);
    assert CallerSound(Run(START, moves), Run(START, moves).callers[c]);
  }

  /** The login behind a token was granted. */
  predicate TokenSound(fetches: seq<Fetch>, token: Token) {
    token.FromFetch? ==>
      && token.fetch < |fetches|
      && (fetches[token.fetch] == Written(true) || (fetches[token.fetch].Settled? && fetches[token.fetch].ok))
  }

  ghost predicate TokensSound(w: World) {
    && (w.cache.Some? ==> TokenSound(w.fetches, w.cache.value))
    && (forall c :: c in w.callers && w.callers[c].HasRead? && w.callers[c].cached.Some? ==>
          TokenSound(w.fetches, w.callers[c].cached.value))
    && (forall c :: c in w.callers && w.callers[c].GotCached? ==> TokenSound(w.fetches, w.callers[c].token))
  }

  lemma {:induction false} RunTokensSound(w: World, moves: seq<Move>)
    requires TokensSound(w)
    ensures TokensSound(Run(w, moves))
    decreases |moves|
  {
    if moves != [] {
      ApplyTokensSound(w, moves[0]);
      RunTokensSound(Apply(w, moves[0]), moves[1..]);
    }
  }

  /** A granted login stays granted. */
  lemma TokenStaysSound(w: World, m: Move, token: Token)
    requires TokenSound(w.fetches, token)
    ensures TokenSound(Apply(w, m).fetches, token)
  {
  }

  lemma ApplyTokensSound(w: World, m: Move)
    requires TokensSound(w)
    ensures TokensSound(Apply(w, m))
  {
    forall token | TokenSound(w.fetches, token)
      ensures TokenSound(Apply(w, m).fetches, token)
    {
      TokenStaysSound(w, m, token);
    }
    if m.Write? && Possible(w, m) && w.fetches[m.f].ok {
      WrittenTokenIsSound(w, m);
    }
    assert m.Foreign? && Possible(w, m) && m.cache.Some? ==> TokenSound(w.fetches, m.cache.value);
    hide TokenSound;
  }

  lemma WrittenTokenIsSound(w: World, m: Move)
    requires m.Write? && Possible(w, m) && w.fetches[m.f].ok
    ensures TokenSound(Apply(w, m).fetches, FromFetch(m.f))
  {
  }

  /** No caller is ever handed a cached token of this process that the courier did not grant. */
  lemma CachedTokensWereGranted(moves: seq<Move>, c: nat)
    ensures var w := Run(START, moves);
            c in w.callers && w.callers[c].GotCached? && w.callers[c].token.FromFetch? ==>
              var f := w.callers[c].token.fetch;
              f < |w.fetches| && !w.fetches[f].Posting? && w.fetches[f].ok
  {
    RunTokensSound(START, moves);
  }
}
