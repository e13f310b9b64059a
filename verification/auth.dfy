/**
 * The client's session state (web-app/src/context/AuthContext.jsx): the
 * reducer over login, logout and progress actions, the stored copy of the
 * user, the `earnXP` read-modify-write of the three progress counters, and
 * the level arithmetic read from the total XP.
 *
 * `user.progress` is a plain object merged with spread syntax, so it is a
 * map from key to number. A counter that is missing when `earnXP` adds to
 * it makes JavaScript produce `NaN`; numbers are therefore `Int` or `NaN`.
 */
module Auth {
  import opened Common

  /** A JavaScript number as this code can produce it: an integer or NaN. */
  datatype Num = Int(v: int) | NaN

  /** `a + b` on numbers; an `undefined` operand is passed as NaN. */
  function Add(a: Num, b: Num): (r: Num)
    ensures r.Int? <==> a.Int? && b.Int?
    ensures r.Int? ==> r.v == a.v + b.v
  {
    if a.Int? && b.Int? then Int(a.v + b.v) else NaN
  }

  /** A number is truthy unless it is 0 or NaN. */
  predicate NumTruthy(n: Num) {
    n.Int? && n.v != 0
  }

  const TotalXP: string := "totalXP"
  const ModulesCompleted: string := "modulesCompleted"
  const CurrentStreak: string := "currentStreak"

  type Progress = map<string, Num>

  /** The progress given to a user who has none: the three counters at zero. */
  const DefaultProgress: Progress := map[TotalXP := Int(0), ModulesCompleted := Int(0), CurrentStreak := Int(0)]

  /** A property read: an absent key reads as `undefined`, which arithmetic turns into NaN. */
  function Get(p: Progress, k: string): (r: Num)
    ensures k !in p ==> r == NaN
    ensures k in p ==> r == p[k]
  {
    if k in p then p[k] else NaN
  }

  /** The user object; `progress` is `None` when the object has no such property. */
  datatype User = User(id: string, name: string, email: string, progress: Option<Progress>)

  datatype AuthState = AuthState(
    isAuthenticated: bool,
    user: Option<User>,
    token: Option<string>,
    loading: bool,
    error: Option<string>)

  /** The browser storage keys this reducer writes: `user` and `token`. */
  datatype Stored = Stored(user: Option<User>, token: Option<string>)

  datatype Action =
    | LoginStart
    | LoginSuccess(user: User, token: Option<string>)
    | LoginError(message: string)
    | Logout
    | UpdateProgress(payload: Progress)
    | Unknown(name: string)

  /** The state a provider starts with, reading the token from storage. */
  function InitialState(stored: Stored): (s: AuthState)
    ensures !s.isAuthenticated && s.user.None? && !s.loading && s.error.None?
    ensures s.token == stored.token
  {
    AuthState(false, None, stored.token, false, None)
  }

  /** `LOGIN_SUCCESS` fills in the default counters when the user carries no progress. */
  function WithProgress(u: User): (r: User)
    ensures r.progress.Some?
    ensures u.progress.Some? ==> r == u
    ensures u.progress.None? ==> r == u.(progress := Some(DefaultProgress))
  {
    if u.progress.Some? then u else u.(progress := Some(DefaultProgress))
  }

  /** `{...old, ...payload}`: the payload's keys win, every other key keeps its value. */
  function Spread(old_: Progress, payload: Progress): (r: Progress)
    ensures r.Keys == old_.Keys + payload.Keys
    ensures forall k :: k in payload ==> r[k] == payload[k]
    ensures forall k :: k in old_ && k !in payload ==> r[k] == old_[k]
  {
    old_ + payload
  }

  /** The result of one dispatch: the new state and storage, or `None` when the reducer throws. */
  datatype Step = Step(state: AuthState, stored: Stored)

  /**
   * `authReducer` together with its storage writes. `UPDATE_PROGRESS`
   * reads `state.user.progress`, which throws when there is no user.
   */
  function Reduce(s: AuthState, st: Stored, a: Action): (r: Option<Step>)
    ensures r.None? <==> a.UpdateProgress? && s.user.None?
  {
    match a
    case LoginStart => Some(Step(s.(loading := true, error := None), st))
    case LoginSuccess(u, token) =>
      var user := WithProgress(u);
      Some(Step(s.(loading := false, isAuthenticated := true, user := Some(user), token := token, error := None),
                st.(user := Some(user))))
    case LoginError(message) =>
      Some(Step(s.(loading := false, error := Some(message), isAuthenticated := false), st))
    case Logout =>
      Some(Step(s.(isAuthenticated := false, user := None, token := None), Stored(None, None)))
    case UpdateProgress(payload) =>
      if s.user.None? then None
      else
        var base := if s.user.value.progress.Some? then s.user.value.progress.value else map[];
        var user := s.user.value.(progress := Some(Spread(base, payload)));
        Some(Step(s.(user := Some(user)), st.(user := Some(user))))
    case Unknown(_) => Some(Step(s, st))
  }

  /** `LOGIN_SUCCESS` authenticates, clears loading and error, and gives the user progress counters. */
  lemma LoginSuccessAuthenticates(s: AuthState, st: Stored, u: User, token: Option<string>)
    ensures var r := Reduce(s, st, LoginSuccess(u, token));
      && r.Some?
      && r.value.state.isAuthenticated && !r.value.state.loading && r.value.state.error.None?
      && r.value.state.user == Some(WithProgress(u)) && r.value.state.token == token
      && r.value.state.user.value.progress.Some?
      && (u.progress.None? ==> r.value.state.user.value.progress == Some(DefaultProgress))
      && r.value.stored.user == r.value.state.user
  {
  }

  /** `LOGIN_ERROR` records the message, clears loading and de-authenticates, keeping the user and token. */
  lemma LoginErrorRecords(s: AuthState, st: Stored, m: string)
    ensures var r := Reduce(s, st, LoginError(m));
      && r == Some(Step(AuthState(false, s.user, s.token, false, Some(m)), st))
  {
  }

  /** `LOGOUT` forgets the user and the token, in the state and in storage. */
  lemma LogoutClears(s: AuthState, st: Stored)
    ensures var r := Reduce(s, st, Logout);
      && r.Some? && !r.value.state.isAuthenticated
      && r.value.state.user.None? && r.value.state.token.None?
      && r.value.state.loading == s.loading && r.value.state.error == s.error
      && r.value.stored == Stored(None, None)
  {
  }

  /**
   * `UPDATE_PROGRESS` with a user overwrites exactly the payload's keys of
   * the progress; every other key and every other user field is unchanged.
   */
  lemma UpdateProgressMerges(s: AuthState, st: Stored, payload: Progress)
    requires s.user.Some?
    ensures var r := Reduce(s, st, UpdateProgress(payload));
      && r.Some? && r.value.state.user.Some?
      && var u := r.value.state.user.value;
      && u.id == s.user.value.id && u.name == s.user.value.name && u.email == s.user.value.email
      && u.progress.Some?
      && (forall k :: k in payload ==> u.progress.value[k] == payload[k])
      && (s.user.value.progress.Some? ==>
            forall k :: k in s.user.value.progress.value && k !in payload ==>
              k in u.progress.value && u.progress.value[k] == s.user.value.progress.value[k])
      && u.progress.value.Keys == payload.Keys + (if s.user.value.progress.Some? then s.user.value.progress.value.Keys else {})
      && r.value.state == s.(user := Some(u))
      && r.value.stored == st.(user := Some(u))
  {
  }

  /** An action the reducer does not know leaves state and storage as they were. */
  lemma UnknownKeepsState(s: AuthState, st: Stored, name: string)
    ensures Reduce(s, st, Unknown(name)) == Some(Step(s, st))
  {
  }

  /** Every action that succeeds keeps the stored user equal to the state's user whenever it writes one. */
  lemma StoredUserMirrorsState(s: AuthState, st: Stored, a: Action)
    requires a.LoginSuccess? || a.UpdateProgress? || a.Logout?
    requires Reduce(s, st, a).Some?
    ensures Reduce(s, st, a).value.stored.user == Reduce(s, st, a).value.state.user
  {
  }

  /** The counters `earnXP` writes: XP plus the amount, modules and streak plus one each. */
  function EarnPatch(current: Option<Progress>, amount: int): (p: Progress)
    ensures p.Keys == {TotalXP, ModulesCompleted, CurrentStreak}
    ensures current.None? ==> p[TotalXP] == Int(amount) && p[ModulesCompleted] == Int(1) && p[CurrentStreak] == Int(1)
    ensures current.Some? ==>
      && p[TotalXP] == Add(Get(current.value, TotalXP), Int(amount))
      && p[ModulesCompleted] == Add(Get(current.value, ModulesCompleted), Int(1))
      && p[CurrentStreak] == Add(Get(current.value, CurrentStreak), Int(1))
  {
    var cp := if current.Some? then current.value else DefaultProgress;
    map[TotalXP := Add(Get(cp, TotalXP), Int(amount)),
        ModulesCompleted := Add(Get(cp, ModulesCompleted), Int(1)),
        CurrentStreak := Add(Get(cp, CurrentStreak), Int(1))]
  }

  /** The total XP as read by the level helpers; absent user or progress reads as `undefined`. */
  function XPOf(s: AuthState): (n: Num)
    ensures s.user.None? || s.user.value.progress.None? ==> n == NaN
  {
    if s.user.Some? && s.user.value.progress.Some? then Get(s.user.value.progress.value, TotalXP) else NaN
  }

  /** `getUserLevel`: 1 for a falsy total (absent, 0 or NaN), else `floor(totalXP / 100) + 1`. */
  function GetUserLevel(s: AuthState): (l: int)
    ensures !NumTruthy(XPOf(s)) ==> l == 1
    ensures NumTruthy(XPOf(s)) ==> l == Level(XPOf(s).v)
  {
    var x := XPOf(s);
    if !NumTruthy(x) then 1 else x.v / 100 + 1
  }

  /** `getLevelProgress`: 0 for a falsy total, else `totalXP % 100` (JavaScript remainder). */
  function GetLevelProgress(s: AuthState): (p: int)
    ensures !NumTruthy(XPOf(s)) ==> p == 0
    ensures NumTruthy(XPOf(s)) ==> p == JsRem(XPOf(s).v, 100)
  {
    var x := XPOf(s);
    if !NumTruthy(x) then 0 else JsRem(x.v, 100)
  }

  /** For a non-negative total the level and the progress in it recompose the total. */
  lemma LevelAndProgressRecompose(s: AuthState)
    requires XPOf(s).Int? && XPOf(s).v >= 0
    ensures 1 <= GetUserLevel(s) && 0 <= GetLevelProgress(s) < 100
    ensures (GetUserLevel(s) - 1) * 100 + GetLevelProgress(s) == XPOf(s).v
  {
  }

  /**
   * The provider: the reducer's state and the browser storage it writes.
   * `earnXP` reads the current user, then dispatches `UPDATE_PROGRESS`.
   */
  class AuthProvider {
    var state: AuthState
    var stored: Stored

    constructor (st: Stored)
      ensures state == InitialState(st) && stored == st
    {
      state := InitialState(st);
      stored := st;
    }

    /** `dispatch`: apply the reducer; `ok` is false, and nothing changes, when it throws. */
    method Dispatch(a: Action) returns (ok: bool)
      modifies this
      ensures ok <==> Reduce(old(state), old(stored), a).Some?
      ensures ok ==> (state == Reduce(old(state), old(stored), a).value.state &&
                      stored == Reduce(old(state), old(stored), a).value.stored)
      ensures !ok ==> state == old(state) && stored == old(stored)
    {
      var r := Reduce(state, stored, a);
      if r.None? {
        return false;
      }
      state := r.value.state;
      stored := r.value.stored;
      ok := true;
    }

    /**
     * `earnXP`: nothing without a user; otherwise the three counters are
     * written as one progress update. `leveledUp` is the level-up check on
     * the totals before and after (false when either is NaN).
     */
    method EarnXP(amount: int) returns (leveledUp: bool)
      modifies this
      ensures old(state).user.None? ==> state == old(state) && stored == old(stored) && !leveledUp
      ensures old(state).user.Some? ==>
        var patch := EarnPatch(old(state).user.value.progress, amount);
        && Some(Step(state, stored)) == Reduce(old(state), old(stored), UpdateProgress(patch))
        && state.user.Some? && state.user.value.progress.Some?
        && state.user.value.progress.value[TotalXP] == patch[TotalXP]
        && state.user.value.progress.value[ModulesCompleted] == patch[ModulesCompleted]
        && state.user.value.progress.value[CurrentStreak] == patch[CurrentStreak]
      ensures leveledUp ==> old(state).user.Some?
    {
      if state.user.None? {
        return false;
      }
      var current := state.user.value.progress;
      var before := if current.Some? then Get(current.value, TotalXP) else Int(0);
      var patch := EarnPatch(current, amount);
      var _ := Dispatch(UpdateProgress(patch));
      var after := patch[TotalXP];
      leveledUp := before.Int? && after.Int? && Level(after.v) > Level(before.v);
    }
  }

  /**
   * For a user whose counters are integers, `earnXP` adds the amount to the
   * XP and one to each of the other two counters, and a non-negative amount
   * never lowers the level.
   */
  lemma EarnXPCounters(p: Progress, amount: int)
    requires TotalXP in p && ModulesCompleted in p && CurrentStreak in p
    requires p[TotalXP].Int? && p[ModulesCompleted].Int? && p[CurrentStreak].Int?
    ensures var q := EarnPatch(Some(p), amount);
      && q[TotalXP] == Int(p[TotalXP].v + amount)
      && q[ModulesCompleted] == Int(p[ModulesCompleted].v + 1)
      && q[CurrentStreak] == Int(p[CurrentStreak].v + 1)
      && (amount >= 0 ==> Level(q[TotalXP].v) >= Level(p[TotalXP].v))
  {
    var q := EarnPatch(Some(p), amount);
    if amount >= 0 {
      LevelMonotone(p[TotalXP].v, q[TotalXP].v);
    }
  }

  /** A missing counter turns into NaN, after which the total is stuck at NaN. */
  lemma MissingCounterPoisons(p: Progress, amount: int)
    requires TotalXP !in p
    ensures EarnPatch(Some(p), amount)[TotalXP] == NaN
    ensures EarnPatch(Some(EarnPatch(Some(p), amount)), amount)[TotalXP] == NaN
  {
  }

  lemma LevelMonotone(a: int, b: int)
    requires a <= b
    ensures Level(a) <= Level(b)
  {
  }
}
