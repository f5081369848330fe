/**
 * The courier client's `request`: a retry loop whose attempts may, on an auth failure, call
 * `request` again with a retry loop of its own. One request runs alone here; concurrent logins
 * are in SingleFlight.
 */
module Client {
  /** What the courier answers to a business call; status 0 is no response at all. */
  datatype Answer = Success | HttpError(status: int) | NotAxios

  datatype Reply = Ok | Fail(retryable: bool)

  /** The outside world: answers to business calls, logins and cache reads, in the order they happen.
      `keeps(i)` says whether cache read `i` still finds a stored token. */
  datatype World = World(answers: nat -> Answer, grants: nat -> bool, keeps: nat -> bool)

  /** Counters of the client; `token` is whether a token is stored in the cache. */
  datatype Net = Net(calls: nat, logins: nat, sleeps: nat, lookups: nat, nested: nat, token: bool)

  datatype Result = Result(net: Net, reply: Reply)

  // What the four functions of the client compute

  /** `fetchAndStoreNewAuthToken`: a failed login is an error without the retryable flag. */
  function Fetch(w: World, n: Net): Result {
    var n' := n.(logins := n.logins + 1, token := w.grants(n.logins));
    Result(n', if w.grants(n.logins) then Ok else Fail(false))
  }

  /** `getAuthToken` */
  function GetToken(w: World, n: Net, force: bool): Result {
    if force then Fetch(w, n)
    else
      var n' := n.(lookups := n.lookups + 1);
      if n.token && w.keeps(n.lookups) then Result(n', Ok) else Fetch(w, n')
  }

  /** A token comes from the cache unless a login is forced or none is kept; a login leaves one exactly if granted. */
  lemma TokenIsFetched(w: World, n: Net, force: bool)
    ensures var cached := !force && n.token && w.keeps(n.lookups);
            var r := GetToken(w, n, force);
            && r.reply == (if cached || w.grants(n.logins) then Ok else Fail(false)) && r.net.token == r.reply.Ok?
            && r.net.logins == n.logins + (if cached then 0 else 1)
            && r.net.lookups == n.lookups + (if force then 0 else 1)
            && r.net.calls == n.calls && r.net.sleeps == n.sleeps && r.net.nested == n.nested
  {
  }

  predicate IsAuthFailure(a: Answer) {
    a.HttpError? && (a.status == 401 || a.status == 403)
  }

  /** `createClientError` or `createServerError`, by status. */
  function ErrorFor(status: int): Reply {
    Fail(!(status != 0 && 400 <= status < 500))
  }

  /** `executeCall` with `handleAxiosRequestError`; `max` is the attempt budget of each retry loop. */
  function Attempt(w: World, max: nat, retried: bool, n: Net): Result
    requires max >= 1
    decreases if retried then 0 else 1, 0
  {
    var auth := GetToken(w, n, false);
    if auth.reply.Fail? then auth
    else
      var a := w.answers(auth.net.calls);
      var n' := auth.net.(calls := auth.net.calls + 1);
      if a.Success? then Result(n', Ok)
      else if a.NotAxios? then Result(n', Fail(false))
      else if IsAuthFailure(a) && !retried then
        var renewed := GetToken(w, n'.(token := false), true);
        if renewed.reply.Fail? then renewed
        else RunRequest(w, max, true, renewed.net.(nested := renewed.net.nested + 1))
      else Result(n', ErrorFor(a.status))
  }

  /** `retryWithBackoff` with `left` attempts remaining after this one. */
  function Loop(w: World, max: nat, retried: bool, left: nat, n: Net): Result
    requires max >= 1
    decreases if retried then 0 else 1, left + 1
  {
    var r := Attempt(w, max, retried, n);
    if r.reply.Ok? || left == 0 || !r.reply.retryable then r
    else Loop(w, max, retried, left - 1, r.net.(sleeps := r.net.sleeps + 1))
  }

  function RunRequest(w: World, max: nat, retried: bool, n: Net): Result
    requires max >= 1
    decreases if retried then 0 else 1, max + 1
  {
    Loop(w, max, retried, max - 1, n)
  }

  /** `attempt >= maxAttempts` is tested after the first attempt only. */
  function Budget(retryAttempts: int): (n: nat)
    ensures n >= 1 && n >= retryAttempts && (n == 1 || n == retryAttempts)
  {
    if retryAttempts < 1 then 1 else retryAttempts
  }

  // Upper bounds, for every world

  /** `n` to `n'` in at most so many calls, sleeps, logins and nested requests. */
  predicate Within(n: Net, n': Net, calls: int, sleeps: int, logins: int, nested: int) {
    && n.calls <= n'.calls <= n.calls + calls
    && n.sleeps <= n'.sleeps <= n.sleeps + sleeps
    && n.logins <= n'.logins <= n.logins + logins
    && n.nested <= n'.nested <= n.nested + nested
  }

  lemma {:induction false} InnerLoopBound(w: World, max: nat, left: nat, n: Net)
    requires max >= 1
    ensures Within(n, Loop(w, max, true, left, n).net, left + 1, left, left + 1, 0)
    decreases left
  {
    var r := Attempt(w, max, true, n);
    assert Within(n, r.net, 1, 0, 1, 0);
    if r.reply.Fail? && left > 0 && r.reply.retryable {
      InnerLoopBound(w, max, left - 1, r.net.(sleeps := r.net.sleeps + 1));
    }
  }

  lemma OuterAttemptBound(w: World, max: nat, n: Net)
    requires max >= 1
    ensures Within(n, Attempt(w, max, false, n).net, max + 1, max - 1, max + 2, 1)
  {
    var auth := GetToken(w, n, false);
    if auth.reply.Ok? {
      var n' := auth.net.(calls := auth.net.calls + 1);
      var renewed := GetToken(w, n'.(token := false), true);
      InnerLoopBound(w, max, max - 1, renewed.net.(nested := renewed.net.nested + 1));
    }
  }

  lemma {:induction false} OuterLoopBound(w: World, max: nat, left: nat, n: Net)
    requires max >= 1
    ensures Within(n, Loop(w, max, false, left, n).net,
                   (left + 1) * (max + 1), (left + 1) * (max - 1) + left, (left + 1) * (max + 2), left + 1)
    decreases left
  {
    hide Attempt;
    var r := Attempt(w, max, false, n);
    OuterAttemptBound(w, max, n);
    if r.reply.Fail? && left > 0 && r.reply.retryable {
      OuterLoopBound(w, max, left - 1, r.net.(sleeps := r.net.sleeps + 1));
    }
    assert (left + 1) * (max + 1) == left * (max + 1) + (max + 1);
    assert (left + 1) * (max - 1) == left * (max - 1) + (max - 1);
    assert (left + 1) * (max + 2) == left * (max + 2) + (max + 2);
    assert left * (max + 1) >= 0 && left * (max - 1) >= 0 && left * (max + 2) >= 0;
  }

  /** Whatever the courier and the cache answer: at most N(N+1) calls, N*N - 1 sleeps, N(N+2) logins. */
  lemma RequestBound(w: World, retryAttempts: int, n: Net)
    ensures var max := Budget(retryAttempts);
            Within(n, RunRequest(w, max, false, n).net, max * (max + 1), max * max - 1, max * (max + 2), max)
  {
    var max := Budget(retryAttempts);
    hide Loop;
    OuterLoopBound(w, max, max - 1, n);
    assert max * (max - 1) + (max - 1) == max * max - 1;
  }

  // Logins when the cache retains what it is given

  ghost predicate Retains(w: World) {
    forall i :: w.keeps(i)
  }

  lemma {:induction false} InnerLoopLogins(w: World, max: nat, left: nat, n: Net)
    requires max >= 1 && Retains(w) && n.token
    ensures var r := Loop(w, max, true, left, n); r.net.logins == n.logins && r.net.token
    decreases left
  {
    var r := Attempt(w, max, true, n);
    if r.reply.Fail? && left > 0 && r.reply.retryable {
      InnerLoopLogins(w, max, left - 1, r.net.(sleeps := r.net.sleeps + 1));
    }
  }

  /** A retryable failure always leaves a token behind, so only the first attempt can need a login for it. */
  lemma OuterAttemptLogins(w: World, max: nat, n: Net)
    requires max >= 1 && Retains(w)
    ensures var r := Attempt(w, max, false, n);
            && r.net.logins <= n.logins + 1 + (if n.token then 0 else 1)
            && (r.reply.Fail? && r.reply.retryable ==> r.net.token)
  {
    var auth := GetToken(w, n, false);
    if auth.reply.Ok? {
      var n' := auth.net.(calls := auth.net.calls + 1);
      var renewed := GetToken(w, n'.(token := false), true);
      if renewed.reply.Ok? {
        InnerLoopLogins(w, max, max - 1, renewed.net.(nested := renewed.net.nested + 1));
      }
    }
  }

  lemma {:induction false} OuterLoopLogins(w: World, max: nat, left: nat, n: Net)
    requires max >= 1 && Retains(w)
    ensures Loop(w, max, false, left, n).net.logins <= n.logins + left + 1 + (if n.token then 0 else 1)
    decreases left
  {
    hide Attempt;
    var r := Attempt(w, max, false, n);
    OuterAttemptLogins(w, max, n);
    if r.reply.Fail? && left > 0 && r.reply.retryable {
      OuterLoopLogins(w, max, left - 1, r.net.(sleeps := r.net.sleeps + 1));
    }
  }

  lemma RetainedLogins(w: World, retryAttempts: int, n: Net)
    requires Retains(w)
    ensures RunRequest(w, Budget(retryAttempts), false, n).net.logins <= n.logins + Budget(retryAttempts) + 1
  {
    hide Loop;
    OuterLoopLogins(w, Budget(retryAttempts), Budget(retryAttempts) - 1, n);
  }

  // The bounds are attained

  /** 401 on the first call of every outer attempt, 500 on the calls of its nested request. */
  function Stubborn(max: nat): nat -> Answer
    requires max >= 1
  {
    i => if i % (max + 1) == 0 then HttpError(401) else HttpError(500)
  }

  function StubbornWorld(max: nat, keeps: bool): World
    requires max >= 1
  {
    World(Stubborn(max), i => true, i => keeps)
  }

  lemma InCycle(max: nat, j: nat, i: nat)
    requires i <= max
    ensures ((max + 1) * j + i) % (max + 1) == i
  {
    var m := max + 1;
    var x := m * j + i;
    var q, r := x / m, x % m;
    assert m * (j - q) == r - i;
    assert j - q >= 1 ==> m * (j - q) >= m;
    assert j - q <= -1 ==> m * (j - q) <= -m;
  }

  lemma {:induction false} StubbornInner(max: nat, keeps: bool, j: nat, left: nat, n: Net)
    requires max >= 1 && left < max && n.token && n.calls == (max + 1) * j + (max - left)
    ensures var r := Loop(StubbornWorld(max, keeps), max, true, left, n);
            && r.reply == Fail(true) && r.net.token
            && r.net.calls == n.calls + left + 1 && r.net.sleeps == n.sleeps + left && r.net.nested == n.nested
            && r.net.logins == n.logins + if keeps then 0 else left + 1
    decreases left
  {
    var w := StubbornWorld(max, keeps);
    InCycle(max, j, max - left);
    var r := Attempt(w, max, true, n);
    assert r.reply == Fail(true) && r.net.calls == n.calls + 1 && r.net.token;
    if left > 0 {
      StubbornInner(max, keeps, j, left - 1, r.net.(sleeps := r.net.sleeps + 1));
    }
  }

  lemma StubbornAttempt(max: nat, keeps: bool, j: nat, n: Net)
    requires max >= 1 && n.calls == (max + 1) * j
    ensures var r := Attempt(StubbornWorld(max, keeps), max, false, n);
            && r.reply == Fail(true) && r.net.token
            && r.net.calls == (max + 1) * (j + 1) && r.net.sleeps == n.sleeps + max - 1 && r.net.nested == n.nested + 1
            && r.net.logins == n.logins + if keeps then (if n.token then 1 else 2) else max + 2
  {
    var w := StubbornWorld(max, keeps);
    InCycle(max, j, 0);
    var auth := GetToken(w, n, false);
    var n' := auth.net.(calls := auth.net.calls + 1);
    var renewed := GetToken(w, n'.(token := false), true);
    StubbornInner(max, keeps, j, max - 1, renewed.net.(nested := renewed.net.nested + 1));
    assert (max + 1) * (j + 1) == (max + 1) * j + (max + 1);
  }

  lemma {:induction false} StubbornOuter(max: nat, keeps: bool, j: nat, left: nat, n: Net)
    requires max >= 1 && n.calls == (max + 1) * j
    ensures var r := Loop(StubbornWorld(max, keeps), max, false, left, n);
            && r.reply == Fail(true)
            && r.net.calls == (max + 1) * (j + left + 1)
            && r.net.sleeps == n.sleeps + (left + 1) * (max - 1) + left
            && r.net.nested == n.nested + left + 1
            && r.net.logins == n.logins + if keeps then left + 1 + (if n.token then 0 else 1)
                                           else (left + 1) * (max + 2)
    decreases left
  {
    hide Attempt, StubbornWorld;
    StubbornAttempt(max, keeps, j, n);
    var r := Attempt(StubbornWorld(max, keeps), max, false, n);
    if left > 0 {
      StubbornOuter(max, keeps, j + 1, left - 1, r.net.(sleeps := r.net.sleeps + 1));
    }
    assert (left + 1) * (max - 1) == left * (max - 1) + (max - 1);
    assert (left + 1) * (max + 2) == left * (max + 2) + (max + 2);
  }

  /** For every budget some courier makes the client spend all of it. */
  lemma BoundsAttained(retryAttempts: int, keeps: bool)
    ensures var max := Budget(retryAttempts);
            var r := RunRequest(StubbornWorld(max, keeps), max, false, Net(0, 0, 0, 0, 0, false)).net;
            && r.calls == max * (max + 1) && r.sleeps == max * max - 1 && r.nested == max
            && r.logins == if keeps then max + 1 else max * (max + 2)
  {
    var max := Budget(retryAttempts);
    hide Loop;
    StubbornOuter(max, keeps, 0, max - 1, Net(0, 0, 0, 0, 0, false));
    assert (max + 1) * (0 + (max - 1) + 1) == max * (max + 1);
    assert max * (max - 1) + (max - 1) == max * max - 1;
  }

  // What the caller is told, for every world

  /** Server error, no response at all, or anything else that is neither a success nor a client error. */
  predicate Transient(a: Answer) {
    a.HttpError? && (a.status < 400 || a.status >= 500)
  }

  predicate Unauthorized(a: Answer) {
    a.HttpError? && a.status in {401, 403}
  }

  /** The last login was refused. */
  predicate Refused(w: World, n: Net, n': Net) {
    n'.logins > n.logins && !w.grants(n'.logins - 1)
  }

  /** The reply is that of the last login if it was refused, and of the last answer otherwise. */
  predicate RepliesLast(w: World, n: Net, r: Result) {
    && n.calls <= r.net.calls && n.logins <= r.net.logins
    && (forall j :: n.logins <= j < r.net.logins - 1 ==> w.grants(j))
    && if Refused(w, n, r.net) then r.reply == Fail(false) && !r.net.token
       else
         && n.calls < r.net.calls && r.net.token
         && var last := w.answers(r.net.calls - 1);
            r.reply == if last.Success? then Ok else Fail(Transient(last))
  }

  /** The answers after which the client went on: all but the last, and that one too if a login was refused then. */
  function GoneOn(w: World, n: Net, n': Net): int {
    if Refused(w, n, n') then n'.calls else n'.calls - 1
  }

  lemma InnerAttemptReplies(w: World, max: nat, n: Net)
    requires max >= 1
    ensures var r := Attempt(w, max, true, n);
            && RepliesLast(w, n, r) && r.net.nested == n.nested && r.net.sleeps == n.sleeps
            && r.net.calls == n.calls + if Refused(w, n, r.net) then 0 else 1
  {
  }

  lemma {:induction false} InnerLoopReplies(w: World, max: nat, left: nat, n: Net)
    requires max >= 1
    ensures var r := Loop(w, max, true, left, n);
            && RepliesLast(w, n, r) && r.net.nested == n.nested
            && (forall i :: n.calls <= i < GoneOn(w, n, r.net) ==> Transient(w.answers(i)))
            && r.net.sleeps - n.sleeps == GoneOn(w, n, r.net) - n.calls
            && (r.reply == Fail(true) ==> r.net.calls == n.calls + left + 1)
    decreases left
  {
    hide Attempt;
    InnerAttemptReplies(w, max, n);
    var r := Attempt(w, max, true, n);
    if r.reply.Fail? && left > 0 && r.reply.retryable {
      InnerLoopReplies(w, max, left - 1, r.net.(sleeps := r.net.sleeps + 1));
    }
  }

  /** So many sleeps lie between so many calls, nested requests starting without one. */
  predicate SleepsBetween(w: World, n: Net, n': Net) {
    var between := n'.calls - n.calls - (n'.nested - n.nested);
    if Refused(w, n, n') then between - 1 <= n'.sleeps - n.sleeps <= between
    else n'.sleeps - n.sleeps == between - 1
  }

  lemma OuterAttemptReplies(w: World, max: nat, n: Net)
    requires max >= 1
    ensures var r := Attempt(w, max, false, n);
            && RepliesLast(w, n, r) && SleepsBetween(w, n, r.net)
            && (forall i :: n.calls <= i < GoneOn(w, n, r.net) ==>
                  Transient(w.answers(i)) || (i == n.calls && Unauthorized(w.answers(i))))
            && (!Refused(w, n, r.net) && Unauthorized(w.answers(r.net.calls - 1)) ==> r.net.nested > n.nested)
            && r.net.nested >= n.nested
  {
    hide Loop;
    var auth := GetToken(w, n, false);
    if auth.reply.Ok? {
      var n' := auth.net.(calls := auth.net.calls + 1);
      var renewed := GetToken(w, n'.(token := false), true);
      InnerLoopReplies(w, max, max - 1, renewed.net.(nested := renewed.net.nested + 1));
    }
  }

  lemma {:induction false} OuterLoopReplies(w: World, max: nat, left: nat, n: Net)
    requires max >= 1
    ensures var r := Loop(w, max, false, left, n);
            && RepliesLast(w, n, r) && SleepsBetween(w, n, r.net)
            && (forall i :: n.calls <= i < GoneOn(w, n, r.net) ==>
                  Transient(w.answers(i)) || Unauthorized(w.answers(i)))
            && (!Refused(w, n, r.net) && Unauthorized(w.answers(r.net.calls - 1)) ==> r.net.nested > n.nested)
            && (r.reply == Fail(true) ==> r.net.calls - n.calls >= left + 1)
            && r.net.nested >= n.nested
    decreases left
  {
    hide Attempt;
    OuterAttemptReplies(w, max, n);
    var r := Attempt(w, max, false, n);
    if r.reply.Fail? && left > 0 && r.reply.retryable {
      OuterLoopReplies(w, max, left - 1, r.net.(sleeps := r.net.sleeps + 1));
    }
  }

  /**
   * One request, told by its last login and its last answer. It succeeds exactly if a call was made and the
   * last one succeeded. It goes on only after transient answers and 401 or 403; it ends on those two only
   * inside a nested request; and it gives up on a transient one only when the attempts are used up.
   */
  lemma RequestReplies(w: World, retryAttempts: int, n: Net)
    ensures var r := RunRequest(w, Budget(retryAttempts), false, n);
            && RepliesLast(w, n, r) && SleepsBetween(w, n, r.net)
            && (r.reply == Ok <==> n.calls < r.net.calls && w.answers(r.net.calls - 1).Success?)
            && (forall i :: n.calls <= i < GoneOn(w, n, r.net) ==>
                  Transient(w.answers(i)) || Unauthorized(w.answers(i)))
            && (!Refused(w, n, r.net) && Unauthorized(w.answers(r.net.calls - 1)) ==> r.net.nested > n.nested)
            && (r.reply == Fail(true) ==> r.net.calls - n.calls >= Budget(retryAttempts))
  {
    hide Loop;
    OuterLoopReplies(w, Budget(retryAttempts), Budget(retryAttempts) - 1, n);
  }

  // The client itself

  class UrbaneBoltClient {
    const world: World
    const retryAttempts: int
    var calls: nat
    var logins: nat
    var sleeps: nat
    var lookups: nat
    var nested: nat
    var token: bool
    var isAuthenticating: bool

    function Now(): Net
      reads this
    {
      Net(calls, logins, sleeps, lookups, nested, token)
    }

    constructor (world: World, retryAttempts: int)
      ensures this.world == world && this.retryAttempts == retryAttempts
      ensures !isAuthenticating && Now() == Net(0, 0, 0, 0, 0, false)
    {
      this.world, this.retryAttempts := world, retryAttempts;
      calls, logins, sleeps, lookups, nested, token, isAuthenticating := 0, 0, 0, 0, 0, false, false;
    }

    method GetAuthToken(forceRefresh: bool) returns (reply: Reply)
      requires !isAuthenticating
      modifies this
      ensures !isAuthenticating && Result(Now(), reply) == GetToken(world, old(Now()), forceRefresh)
    {
      if !forceRefresh {
        var cached := token && world.keeps(lookups);
        lookups := lookups + 1;
        if cached {
          return Ok;
        }
      }
      isAuthenticating := true;
      reply := FetchAndStoreNewAuthToken();
    }

    method FetchAndStoreNewAuthToken() returns (reply: Reply)
      requires isAuthenticating
      modifies this
      ensures !isAuthenticating && Result(Now(), reply) == Fetch(world, old(Now()))
    {
      var granted := world.grants(logins);
      logins := logins + 1;
      if granted {
        token := true;
        reply := Ok;
      } else {
        token := false;
        reply := Fail(false);
      }
      isAuthenticating := false;
    }

    /** The public entry point is `Request(false)`. */
    method Request(hasRetriedAuth: bool) returns (reply: Reply)
      requires !isAuthenticating
      modifies this
      ensures !isAuthenticating
      ensures Result(Now(), reply) == RunRequest(world, Budget(retryAttempts), hasRetriedAuth, old(Now()))
      decreases if hasRetriedAuth then 0 else 1, 1
    {
      ghost var max := Budget(retryAttempts);
      ghost var want := Loop(world, max, hasRetriedAuth, max - 1, Now());
      var attempt := 0;
      while true
        invariant !isAuthenticating && attempt < max
        invariant Loop(world, max, hasRetriedAuth, max - 1 - attempt, Now()) == want
        decreases max - attempt
      {
        attempt := attempt + 1;
        reply := ExecuteCall(hasRetriedAuth);
        if reply.Ok? || attempt >= retryAttempts || !reply.retryable {
          return;
        }
        sleeps := sleeps + 1;
      }
    }

    method ExecuteCall(hasRetriedAuth: bool) returns (reply: Reply)
      requires !isAuthenticating
      modifies this
      ensures !isAuthenticating
      ensures Result(Now(), reply) == Attempt(world, Budget(retryAttempts), hasRetriedAuth, old(Now()))
      decreases if hasRetriedAuth then 0 else 1, 0
    {
      reply := GetAuthToken(false);
      if reply.Fail? {
        return;
      }
      var answer := world.answers(calls);
      calls := calls + 1;
      if answer.Success? {
        return Ok;
      }
      if answer.NotAxios? {
        return Fail(false);
      }
      if (answer.status == 401 || answer.status == 403) && !hasRetriedAuth {
        token := false;
        reply := GetAuthToken(true);
        if reply.Ok? {
          nested := nested + 1;
          reply := Request(true);
        }
        return;
      }
      if answer.status != 0 && 400 <= answer.status < 500 {
        return Fail(false);
      }
      return Fail(true);
    }
  }
}
