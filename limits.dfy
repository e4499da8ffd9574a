/**
 * The client-side rate-limit bucket accounting of an instance: the ten
 * limit categories, the decoded instance policy, one bucket's quota record
 * with its saturating `add_remaining` update, the ten-bucket struct with its
 * iteration order, and the mapping from a decoded policy to the ten initial
 * buckets.
 */
module InstanceLimits {
  import opened MachineInts

  // ---------------------------------------------------------------------
  // Limit categories
  // ---------------------------------------------------------------------

  datatype LimitType =
    | AuthRegister
    | AuthLogin
    | AbsoluteMessage
    | AbsoluteRegister
    | Global
    | Ip
    | Channel
    | Error
    | Guild
    | Webhook

  /** The order in which `Limits::iter` yields the buckets. */
  const IterOrder: seq<LimitType> :=
    [AbsoluteMessage, AbsoluteRegister, AuthLogin, AuthRegister, Ip,
     Global, Error, Guild, Webhook, Channel]

  const AllLimitTypes: set<LimitType> := set t | t in IterOrder

  /** The display name of a category. */
  function Name(t: LimitType): string
  {
    match t
    case AuthRegister => "auth_register"
    case AuthLogin => "auth_login"
    case AbsoluteMessage => "absolute_message"
    case AbsoluteRegister => "absolute_register"
    case Global => "global"
    case Ip => "ip"
    case Channel => "channel"
    case Error => "error"
    case Guild => "guild"
    case Webhook => "webhook"
  }

  /** Every category has a name of its own: display names identify categories. */
  lemma NamesDistinct(a: LimitType, b: LimitType)
    ensures Name(a) == Name(b) <==> a == b
  {
  }

  /** Every category is among `AllLimitTypes`. */
  lemma InAllLimitTypes(t: LimitType)
    ensures t in IterOrder && t in AllLimitTypes
  {
  }

  lemma AllLimitTypesCovered()
    ensures forall t :: t in AllLimitTypes
  {
    forall t ensures t in AllLimitTypes {
      InAllLimitTypes(t);
    }
  }

  /** There are exactly ten categories. */
  lemma TenLimitTypes()
    ensures |AllLimitTypes| == 10
    ensures forall t :: t in AllLimitTypes
  {
    DistinctCardinality(IterOrder);
    AllLimitTypesCovered();
  }

  /** A sequence without repetitions has as many distinct elements as it is long. */
  lemma {:induction false} DistinctCardinality(s: seq<LimitType>)
    requires forall i, j | 0 <= i < j < |s| :: s[i] != s[j]
    ensures |set x | x in s| == |s|
    decreases |s|
  {
    if s != [] {
      DistinctCardinality(s[1..]);
      assert (set x | x in s) == (set x | x in s[1..]) + {s[0]};
      assert s[0] !in s[1..];
    }
  }

  // ---------------------------------------------------------------------
  // The decoded instance policy
  // ---------------------------------------------------------------------

  datatype User = User(maxGuilds: U64, maxUsername: U64, maxFriends: U64)

  datatype GuildPolicy = GuildPolicy(
    maxRoles: U64, maxEmojis: U64, maxMembers: U64, maxChannels: U64,
    maxChannelsInCategory: U64)

  datatype Message = Message(
    maxCharacters: U64, maxTTSCharacters: U64, maxReactions: U64,
    maxAttachmentSize: U64, maxBulkDelete: U64, maxEmbedDownloadSize: U64)

  datatype ChannelPolicy = ChannelPolicy(maxPins: U64, maxTopic: U64, maxWebhooks: U64)

  /** A rate window: at most `count` requests per `window`. */
  datatype Window = Window(count: U64, window: U64)

  datatype AuthRoutes = AuthRoutes(login: Window, register: Window)

  datatype Routes = Routes(guild: Window, webhook: Window, channel: Window, auth: AuthRoutes)

  datatype Rate = Rate(enabled: bool, ip: Window, global: Window, error: Window, routes: Routes)

  /** An absolute window, switched on and off independently of `Rate.enabled`. */
  datatype AbsoluteWindow = AbsoluteWindow(limit: U64, window: U64, enabled: bool)

  datatype AbsoluteRate = AbsoluteRate(register: AbsoluteWindow, sendMessage: AbsoluteWindow)

  datatype Config = Config(
    user: User, guild: GuildPolicy, message: Message, channel: ChannelPolicy,
    rate: Rate, absoluteRate: AbsoluteRate)

  // ---------------------------------------------------------------------
  // One bucket and its update
  // ---------------------------------------------------------------------

  /** The quota of one category: its ceiling, what is left, and the window length. */
  datatype Limit = Limit(bucket: LimitType, limit: U64, remaining: U64, reset: U64)

  /**
   * The result of a computation in checked machine arithmetic: a value, or
   * the panic that an arithmetic overflow raises when overflow checks are on
   * (the default for debug builds and test runs).
   */
  datatype Checked = Value(v: U64) | Overflow

  function Max0(x: int): int
  {
    if x < 0 then 0 else x
  }

  /**
   * The new `remaining` after `add_remaining(delta)` with overflow checks on.
   * A debit goes through `remaining as i64`, which is negative for a
   * `remaining` above `i64::MAX` (the unlimited sentinel among them), so such
   * a bucket drops to 0 on a debit, or panics when `(remaining as i64) + delta`
   * falls below `i64::MIN`; a credit is not clamped to the ceiling.
   */
  function AddRemainingChecked(remaining: U64, delta: I64): (r: Checked)
    ensures delta < 0 && remaining <= I64_MAX ==> r == Value(Max0(remaining + delta))
    ensures delta < 0 && remaining > I64_MAX ==>
      (r == Overflow <==> remaining - TWO_64 + delta < I64_MIN) && (r.Value? ==> r.v == 0)
    ensures delta >= 0 ==>
      (r.Value? <==> remaining + delta <= U64_MAX) && (r.Value? ==> r.v == remaining + delta)
  {
    if delta < 0 then
      var sum := AsI64(remaining) + delta;
      if sum < I64_MIN then Overflow
      else if sum <= 0 then Value(0)
      else if delta == I64_MIN then Overflow        // `delta.abs()`
      else if remaining < -delta then Overflow      // `-=` below zero
      else Value(remaining + delta)
    else if remaining + delta > U64_MAX then Overflow
    else Value(remaining + delta)
  }

  /**
   * The new `remaining` after `add_remaining(delta)` with overflow checks off
   * (the default for release builds): every step wraps around.
   */
  function AddRemainingWrapping(remaining: U64, delta: I64): U64
  {
    if delta < 0 then
      if WrapI64(AsI64(remaining) + delta) <= 0 then 0
      else WrapU64(remaining - AsU64(WrapI64(-(delta as int))))
    else WrapU64(remaining + delta)
  }

  /** Wherever the checked update does not panic, the wrapping one computes the same value. */
  lemma WrappingAgreesWithChecked(remaining: U64, delta: I64)
    requires AddRemainingChecked(remaining, delta).Value?
    ensures AddRemainingWrapping(remaining, delta) == AddRemainingChecked(remaining, delta).v
  {
  }

  /** Once a bucket is empty, further debits leave it empty. */
  lemma EmptyBucketStaysEmpty(delta: I64)
    requires delta < 0
    ensures AddRemainingChecked(0, delta) == Value(0)
    ensures AddRemainingWrapping(0, delta) == 0
  {
  }

  /**
   * A bucket holding the unlimited sentinel is emptied by any debit, since
   * `u64::MAX as i64` is -1; a debit of `i64::MIN` overflows instead.
   */
  lemma SentinelDebitEmptiesBucket(delta: I64)
    requires delta < 0
    ensures delta > I64_MIN ==> AddRemainingChecked(U64_MAX, delta) == Value(0)
    ensures delta == I64_MIN ==> AddRemainingChecked(U64_MAX, delta) == Overflow
    ensures delta > I64_MIN ==> AddRemainingWrapping(U64_MAX, delta) == 0
  {
  }

  /**
   * Crediting the unlimited sentinel by any positive amount overflows: a
   * panic with overflow checks on; without them a credit of `k` wraps to `k - 1`.
   */
  lemma SentinelCreditOverflows(delta: I64)
    requires delta > 0
    ensures AddRemainingChecked(U64_MAX, delta) == Overflow
    ensures AddRemainingWrapping(U64_MAX, delta) == delta - 1
  {
  }

  /** Credits are not clamped to the ceiling: `remaining` can exceed `limit`. */
  lemma CreditIgnoresCeiling(l: Limit, delta: I64)
    requires delta >= 0 && l.remaining + delta <= U64_MAX
    requires l.remaining + delta > l.limit
    ensures AddRemainingChecked(l.remaining, delta).v > l.limit
  {
  }

  /** The successive updates a bucket undergoes, as long as none panics. */
  function ApplyDeltas(remaining: U64, deltas: seq<I64>): Checked
    decreases |deltas|
  {
    if deltas == [] then Value(remaining)
    else
      match AddRemainingChecked(remaining, deltas[0])
      case Overflow => Overflow
      case Value(v) => ApplyDeltas(v, deltas[1..])
  }

  function Sum(deltas: seq<I64>): int
    decreases |deltas|
  {
    if deltas == [] then 0 else deltas[0] + Sum(deltas[1..])
  }

  /**
   * Successive debits saturate as one: a run of debits on a bucket below the
   * sign bit leaves `max(0, remaining + total)` and never panics.
   */
  lemma {:induction false} DebitsSaturate(remaining: U64, deltas: seq<I64>)
    requires remaining <= I64_MAX
    requires forall i | 0 <= i < |deltas| :: deltas[i] < 0
    ensures ApplyDeltas(remaining, deltas).Value?
    ensures ApplyDeltas(remaining, deltas).v == Max0(remaining + Sum(deltas))
    decreases |deltas|
  {
    if deltas != [] {
      var v := Max0(remaining + deltas[0]);
      assert AddRemainingChecked(remaining, deltas[0]) == Value(v);
      DebitsSaturate(v, deltas[1..]);
      assert Sum(deltas[1..]) <= 0 by { SumOfDebits(deltas[1..]); }
    }
  }

  lemma {:induction false} SumOfDebits(deltas: seq<I64>)
    requires forall i | 0 <= i < |deltas| :: deltas[i] < 0
    ensures Sum(deltas) <= 0
    decreases |deltas|
  {
    if deltas != [] {
      SumOfDebits(deltas[1..]);
    }
  }

  /** The bucket of the unit test: remaining 1, debited by 2, then by 2123123. */
  lemma DebitBelowZeroExample()
    ensures ApplyDeltas(1, [-2]) == Value(0)
    ensures ApplyDeltas(1, [-2, -2123123]) == Value(0)
  {
  }

  /** A `Limit` held in a mutable place, as `add_remaining`'s `&mut self` sees it. */
  class LimitRef {
    var bucket: LimitType
    var limit: U64
    var remaining: U64
    var reset: U64

    function Get(): Limit
      reads this
    {
      Limit(bucket, limit, remaining, reset)
    }

    constructor (l: Limit)
      ensures Get() == l
    {
      bucket, limit, remaining, reset := l.bucket, l.limit, l.remaining, l.reset;
    }

    /**
     * Applies a signed delta to `remaining` with overflow checks on; returns
     * whether the update panicked, in which case nothing has changed.
     */
    method AddRemaining(delta: I64) returns (overflowed: bool)
      modifies this
      ensures overflowed <==> AddRemainingChecked(old(remaining), delta) == Overflow
      ensures !overflowed ==> remaining == AddRemainingChecked(old(remaining), delta).v
      ensures overflowed ==> remaining == old(remaining)
      ensures bucket == old(bucket) && limit == old(limit) && reset == old(reset)
    {
      if delta < 0 {
        var sum := AsI64(remaining) + delta;
        if sum < I64_MIN {
          return true;
        }
        if sum <= 0 {
          remaining := 0;
          return false;
        }
        if delta == I64_MIN {
          return true;
        }
        var magnitude := -delta;
        if remaining < magnitude {
          return true;
        }
        remaining := remaining - magnitude;
        return false;
      }
      if remaining + delta > U64_MAX {
        return true;
      }
      remaining := remaining + delta;
      return false;
    }
  }

  // ---------------------------------------------------------------------
  // The ten-bucket struct
  // ---------------------------------------------------------------------

  /** The iteration order lists every category exactly once. */
  lemma IterOrderIsPermutation()
    ensures |IterOrder| == |AllLimitTypes| == 10
    ensures forall t :: t in IterOrder
    ensures forall i, j | 0 <= i < j < |IterOrder| :: IterOrder[i] != IterOrder[j]
  {
    TenLimitTypes();
    forall t ensures t in IterOrder {
      InAllLimitTypes(t);
    }
  }

  class Limits {
    var limitAbsoluteMessages: Limit
    var limitAbsoluteRegister: Limit
    var limitAuthLogin: Limit
    var limitAuthRegister: Limit
    var limitIp: Limit
    var limitGlobal: Limit
    var limitError: Limit
    var limitGuild: Limit
    var limitWebhook: Limit
    var limitChannel: Limit

    /** The field that holds the bucket of category `t`. */
    function Field(t: LimitType): Limit
      reads this
    {
      match t
      case AbsoluteMessage => limitAbsoluteMessages
      case AbsoluteRegister => limitAbsoluteRegister
      case AuthLogin => limitAuthLogin
      case AuthRegister => limitAuthRegister
      case Ip => limitIp
      case Global => limitGlobal
      case Error => limitError
      case Guild => limitGuild
      case Webhook => limitWebhook
      case Channel => limitChannel
    }

    /** Every field holds the bucket of its own category. */
    ghost predicate Valid()
      reads this
    {
      forall t :: Field(t).bucket == t
    }

    /** Copies the ten buckets out, in `IterOrder`. */
    method Iter() returns (limits: seq<Limit>)
      ensures |limits| == |IterOrder|
      ensures forall i | 0 <= i < |limits| :: limits[i] == Field(IterOrder[i])
      ensures Valid() ==> forall i | 0 <= i < |limits| :: limits[i].bucket == IterOrder[i]
    {
      limits := [];
      limits := limits + [limitAbsoluteMessages];
      limits := limits + [limitAbsoluteRegister];
      limits := limits + [limitAuthLogin];
      limits := limits + [limitAuthRegister];
      limits := limits + [limitIp];
      limits := limits + [limitGlobal];
      limits := limits + [limitError];
      limits := limits + [limitGuild];
      limits := limits + [limitWebhook];
      limits := limits + [limitChannel];
    }
  }

  // ---------------------------------------------------------------------
  // From a decoded policy to the initial buckets
  // ---------------------------------------------------------------------

  /** The "unlimited" bucket: every number at `u64::MAX`. */
  function Unlimited(t: LimitType): Limit
  {
    Limit(t, U64_MAX, U64_MAX, U64_MAX)
  }

  /** A fresh bucket allowing `count` requests per `window`. */
  function Fresh(t: LimitType, count: U64, window: U64): Limit
  {
    Limit(t, count, count, window)
  }

  /** The bucket category `t` is given from its own window of the policy. */
  function Configured(config: Config, t: LimitType): (l: Limit)
    ensures l.bucket == t && l.limit == l.remaining
  {
    var rate := config.rate;
    var absolute := config.absoluteRate;
    match t
    case AbsoluteMessage => Fresh(t, absolute.sendMessage.limit, absolute.sendMessage.window)
    case AbsoluteRegister => Fresh(t, absolute.register.limit, absolute.register.window)
    case AuthLogin => Fresh(t, rate.routes.auth.login.count, rate.routes.auth.login.window)
    case AuthRegister => Fresh(t, rate.routes.auth.register.count, rate.routes.auth.register.window)
    case Guild => Fresh(t, rate.routes.guild.count, rate.routes.guild.window)
    case Webhook => Fresh(t, rate.routes.webhook.count, rate.routes.webhook.window)
    case Channel => Fresh(t, rate.routes.channel.count, rate.routes.channel.window)
    case Ip => Fresh(t, rate.ip.count, rate.ip.window)
    case Global => Fresh(t, rate.global.count, rate.global.window)
    case Error => Fresh(t, rate.error.count, rate.error.window)
  }

  /** Whether `t` is an absolute category whose own toggle is off. */
  predicate SwitchedOff(config: Config, t: LimitType)
  {
    || (t == AbsoluteRegister && !config.absoluteRate.register.enabled)
    || (t == AbsoluteMessage && !config.absoluteRate.sendMessage.enabled)
  }

  /**
   * The initial bucket of category `t`: unlimited when its absolute toggle is
   * off or rate limiting is off altogether, else filled from its window.
   */
  function LimitFor(config: Config, t: LimitType): (l: Limit)
    ensures l.bucket == t
  {
    if SwitchedOff(config, t) || !config.rate.enabled then Unlimited(t)
    else Configured(config, t)
  }

  /** The initial buckets for a decoded policy: one per category. */
  function LimitsFor(config: Config): (m: map<LimitType, Limit>)
    ensures m.Keys == AllLimitTypes
    ensures forall t :: t in m && m[t].bucket == t
  {
    AllLimitTypesCovered();
    map t | t in AllLimitTypes :: LimitFor(config, t)
  }

  /**
   * Builds the bucket map from a decoded policy the way the client does:
   * ten inserts, all unlimited or all from the windows, then the two
   * absolute overrides.
   */
  method CheckLimits(config: Config) returns (limits: map<LimitType, Limit>)
    ensures limits == LimitsFor(config)
  {
    limits := map[];
    if !config.rate.enabled {
      limits := limits[AbsoluteMessage := Unlimited(AbsoluteMessage)];
      limits := limits[AbsoluteRegister := Unlimited(AbsoluteRegister)];
      limits := limits[AuthLogin := Unlimited(AuthLogin)];
      limits := limits[AuthRegister := Unlimited(AuthRegister)];
      limits := limits[Ip := Unlimited(Ip)];
      limits := limits[Global := Unlimited(Global)];
      limits := limits[Error := Unlimited(Error)];
      limits := limits[Guild := Unlimited(Guild)];
      limits := limits[Webhook := Unlimited(Webhook)];
      limits := limits[Channel := Unlimited(Channel)];
      AllInsertedUnlimited(limits);
    } else {
      var rate := config.rate;
      var absolute := config.absoluteRate;
      limits := limits[AbsoluteMessage :=
        Fresh(AbsoluteMessage, absolute.sendMessage.limit, absolute.sendMessage.window)];
      limits := limits[AbsoluteRegister :=
        Fresh(AbsoluteRegister, absolute.register.limit, absolute.register.window)];
      limits := limits[AuthLogin :=
        Fresh(AuthLogin, rate.routes.auth.login.count, rate.routes.auth.login.window)];
      limits := limits[AuthRegister :=
        Fresh(AuthRegister, rate.routes.auth.register.count, rate.routes.auth.register.window)];
      limits := limits[Guild := Fresh(Guild, rate.routes.guild.count, rate.routes.guild.window)];
      limits := limits[Webhook :=
        Fresh(Webhook, rate.routes.webhook.count, rate.routes.webhook.window)];
      limits := limits[Channel :=
        Fresh(Channel, rate.routes.channel.count, rate.routes.channel.window)];
      limits := limits[Ip := Fresh(Ip, rate.ip.count, rate.ip.window)];
      limits := limits[Global := Fresh(Global, rate.global.count, rate.global.window)];
      limits := limits[Error := Fresh(Error, rate.error.count, rate.error.window)];
      AllInsertedConfigured(config, limits);
    }
    ghost var base := limits;
    if !config.absoluteRate.register.enabled {
      limits := limits[AbsoluteRegister := Unlimited(AbsoluteRegister)];
    }
    if !config.absoluteRate.sendMessage.enabled {
      limits := limits[AbsoluteMessage := Unlimited(AbsoluteMessage)];
    }
    OverridesComplete(config, base, limits);
  }

  /** The ten inserts of the disabled branch leave every category unlimited. */
  lemma AllInsertedUnlimited(m: map<LimitType, Limit>)
    requires m == map[][AbsoluteMessage := Unlimited(AbsoluteMessage)]
      [AbsoluteRegister := Unlimited(AbsoluteRegister)][AuthLogin := Unlimited(AuthLogin)]
      [AuthRegister := Unlimited(AuthRegister)][Ip := Unlimited(Ip)][Global := Unlimited(Global)]
      [Error := Unlimited(Error)][Guild := Unlimited(Guild)][Webhook := Unlimited(Webhook)]
      [Channel := Unlimited(Channel)]
    ensures forall t :: t in m && m[t] == Unlimited(t)
  {
    forall t ensures t in m && m[t] == Unlimited(t) {
      InAllLimitTypes(t);
    }
  }

  /** The ten inserts of the enabled branch give every category its configured bucket. */
  lemma AllInsertedConfigured(config: Config, m: map<LimitType, Limit>)
    requires var rate, absolute := config.rate, config.absoluteRate;
      m == map[]
        [AbsoluteMessage :=
          Fresh(AbsoluteMessage, absolute.sendMessage.limit, absolute.sendMessage.window)]
        [AbsoluteRegister :=
          Fresh(AbsoluteRegister, absolute.register.limit, absolute.register.window)]
        [AuthLogin :=
          Fresh(AuthLogin, rate.routes.auth.login.count, rate.routes.auth.login.window)]
        [AuthRegister :=
          Fresh(AuthRegister, rate.routes.auth.register.count, rate.routes.auth.register.window)]
        [Guild := Fresh(Guild, rate.routes.guild.count, rate.routes.guild.window)]
        [Webhook := Fresh(Webhook, rate.routes.webhook.count, rate.routes.webhook.window)]
        [Channel := Fresh(Channel, rate.routes.channel.count, rate.routes.channel.window)]
        [Ip := Fresh(Ip, rate.ip.count, rate.ip.window)]
        [Global := Fresh(Global, rate.global.count, rate.global.window)]
        [Error := Fresh(Error, rate.error.count, rate.error.window)]
    ensures forall t :: t in m && m[t] == Configured(config, t)
  {
    forall t ensures t in m && m[t] == Configured(config, t) {
      InAllLimitTypes(t);
    }
  }

  /** The two absolute overrides, run on either branch's buckets, give `LimitsFor`. */
  lemma OverridesComplete(config: Config, base: map<LimitType, Limit>, m: map<LimitType, Limit>)
    requires forall t ::
      t in base && base[t] == (if config.rate.enabled then Configured(config, t) else Unlimited(t))
    requires m == (
      var afterRegister :=
        if config.absoluteRate.register.enabled then base
        else base[AbsoluteRegister := Unlimited(AbsoluteRegister)];
      if config.absoluteRate.sendMessage.enabled then afterRegister
      else afterRegister[AbsoluteMessage := Unlimited(AbsoluteMessage)])
    ensures m == LimitsFor(config)
  {
    forall t ensures t in m && m[t] == LimitFor(config, t) {
      if t != AbsoluteRegister && t != AbsoluteMessage {
        assert m[t] == base[t];
      }
    }
    assert m.Keys == AllLimitTypes by {
      forall t ensures t in AllLimitTypes {
        InAllLimitTypes(t);
      }
    }
  }

  /** With rate limiting off, every category is unlimited. */
  lemma RateDisabledMeansUnlimited(config: Config, t: LimitType)
    requires !config.rate.enabled
    ensures t in LimitsFor(config)
    ensures LimitsFor(config)[t].limit == LimitsFor(config)[t].remaining
         == LimitsFor(config)[t].reset == U64_MAX
  {
  }

  /**
   * With rate limiting on, every category starts full from its own window,
   * save the absolute ones whose toggle is off.
   */
  lemma RateEnabledUsesWindows(config: Config)
    requires config.rate.enabled
    ensures var m, rate, absolute := LimitsFor(config), config.rate, config.absoluteRate;
      && (absolute.sendMessage.enabled ==>
            m[AbsoluteMessage] == Limit(AbsoluteMessage, absolute.sendMessage.limit,
                                        absolute.sendMessage.limit, absolute.sendMessage.window))
      && (absolute.register.enabled ==>
            m[AbsoluteRegister] == Limit(AbsoluteRegister, absolute.register.limit,
                                         absolute.register.limit, absolute.register.window))
      && m[AuthLogin] == Limit(AuthLogin, rate.routes.auth.login.count,
                               rate.routes.auth.login.count, rate.routes.auth.login.window)
      && m[AuthRegister] == Limit(AuthRegister, rate.routes.auth.register.count,
                                  rate.routes.auth.register.count, rate.routes.auth.register.window)
      && m[Guild] == Limit(Guild, rate.routes.guild.count, rate.routes.guild.count,
                           rate.routes.guild.window)
      && m[Webhook] == Limit(Webhook, rate.routes.webhook.count, rate.routes.webhook.count,
                             rate.routes.webhook.window)
      && m[Channel] == Limit(Channel, rate.routes.channel.count, rate.routes.channel.count,
                             rate.routes.channel.window)
      && m[Ip] == Limit(Ip, rate.ip.count, rate.ip.count, rate.ip.window)
      && m[Global] == Limit(Global, rate.global.count, rate.global.count, rate.global.window)
      && m[Error] == Limit(Error, rate.error.count, rate.error.count, rate.error.window)
  {
    var m := LimitsFor(config);
    assert m[AbsoluteMessage] == LimitFor(config, AbsoluteMessage);
    assert m[AbsoluteRegister] == LimitFor(config, AbsoluteRegister);
    assert m[AuthLogin] == LimitFor(config, AuthLogin);
    assert m[AuthRegister] == LimitFor(config, AuthRegister);
    assert m[Guild] == LimitFor(config, Guild);
    assert m[Webhook] == LimitFor(config, Webhook);
    assert m[Channel] == LimitFor(config, Channel);
    assert m[Ip] == LimitFor(config, Ip);
    assert m[Global] == LimitFor(config, Global);
    assert m[Error] == LimitFor(config, Error);
  }

  /**
   * An absolute toggle that is off makes its category unlimited whatever
   * `rate.enabled` says, and touches no other category.
   */
  lemma AbsoluteTogglesOverride(config: Config, t: LimitType)
    ensures !config.absoluteRate.register.enabled ==>
      LimitsFor(config)[AbsoluteRegister] == Unlimited(AbsoluteRegister)
    ensures !config.absoluteRate.sendMessage.enabled ==>
      LimitsFor(config)[AbsoluteMessage] == Unlimited(AbsoluteMessage)
    ensures t != AbsoluteRegister && t != AbsoluteMessage ==>
      var on := AbsoluteWindow(0, 0, true);
      LimitsFor(config)[t] == LimitsFor(config.(absoluteRate := AbsoluteRate(on, on)))[t]
  {
  }

  /** The bucket map always holds exactly the ten categories, each under its own key. */
  lemma TenBuckets(config: Config)
    ensures |LimitsFor(config)| == 10
    ensures forall t :: t in LimitsFor(config) && LimitsFor(config)[t].bucket == t
  {
    var m := LimitsFor(config);
    forall t ensures t in m && m[t].bucket == t {
      InAllLimitTypes(t);
    }
    assert |m| == |m.Keys|;
    TenLimitTypes();
  }
}
