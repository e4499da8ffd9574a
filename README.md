# Rate-limit bucket accounting and registration-form checks

This project models, in Dafny, two pieces of a chat-platform client library
and proves properties of them.

The first piece is the client's rate-limit bookkeeping (`limits.rs`):

- the ten limit categories (`LimitType`) and their display names;
- the decoded instance policy (`Config` and the structs inside it);
- one bucket's quota record (`Limit`) and its signed update `add_remaining`;
- the ten-field `Limits` struct and the order in which `iter` yields its buckets;
- the mapping that turns a decoded policy into the ten initial buckets.
  If `rate.enabled` is off, every bucket is the "unlimited" sentinel (`u64::MAX` everywhere).
  Otherwise each bucket starts full from its own window.
  Then two absolute toggles, evaluated whatever `rate.enabled` says, force their buckets back to the sentinel.

The second piece is the registration form (`schemas.rs`). `RegisterSchema::new` rejects a
username whose length in bytes is outside 2..32. It then rejects a password, when one is
given, whose length in bytes is outside 1..72. Otherwise it returns the fields unchanged.

Files:

- `machine_ints.dfy` (module `MachineInts`): `u8`, `u64` and `i64` as ranges of the
  integers. It also has the `as` casts between `u64` and `i64`, and 64-bit wrap-around.
- `wrappers.dfy` (module `Wrappers`): `Option` and `Result`.
- `limits.dfy` (module `InstanceLimits`): everything from `limits.rs`.
- `schemas.dfy` (module `Schemas`): `RegisterSchema`, `RegisterSchemaError` and the validator.

Integer widths are explicit. `add_remaining` is modelled with 64-bit semantics and no
precondition:

- `remaining as i64` is a two's-complement reinterpretation. It is negative for any
  `remaining` above `i64::MAX`, the unlimited sentinel included.
- `AddRemainingChecked` follows overflow-checked arithmetic, which is the default in
  debug builds and test runs. An overflowing `+`, `abs()` or `-=` is a panic, shown as
  the `Overflow` outcome.
- `AddRemainingWrapping` follows release builds, where every step wraps.
- A lemma proves that the two agree wherever the checked version does not panic.

Consequences proved about the source as written:

- One debit (any negative delta except `i64::MIN`) empties a bucket that holds the
  unlimited sentinel.
- Crediting the sentinel by any positive amount panics. In a release build a credit of k wraps to k − 1.
- Credits are never clamped to the ceiling.

The model reproduces this behaviour and does not correct it.

The form's strings are Rust `String`s, whose `len()` counts UTF-8 bytes, so `Schemas` models
them as byte sequences (`seq<U8>`).

## Model

| member | source | states |
|---|---|---|
| `InstanceLimits.NamesDistinct` | src/api/policies/instance/limits.rs:22-37 | two categories have the same display name exactly when they are the same category |
| `InstanceLimits.TenLimitTypes` | src/api/policies/instance/limits.rs:9-20 | every category is in `AllLimitTypes`, and that set has exactly ten members |
| `MachineInts.AsI64` | src/api/policies/instance/limits.rs:158 | `remaining as i64` is non-negative exactly when `remaining <= i64::MAX`, and otherwise is `remaining - 2^64` |
| `MachineInts.AsU64` | src/api/policies/instance/limits.rs:162 | `x as u64` is the `u64` congruent to `x` modulo 2^64: the same 64 bits read as unsigned |
| `InstanceLimits.AddRemainingChecked` | src/api/policies/instance/limits.rs:156-166 | debit on `remaining <= i64::MAX`: becomes `max(0, remaining + delta)`, never panics; debit on `remaining > i64::MAX`: becomes 0, or panics exactly when `(remaining as i64) + delta` is below `i64::MIN`; credit: becomes `remaining + delta`, panics exactly when that exceeds `u64::MAX` |
| `InstanceLimits.WrappingAgreesWithChecked` | src/api/policies/instance/limits.rs:156-166 | the release-build (wrapping) update gives the same `remaining` as the checked one wherever the checked one does not panic |
| `InstanceLimits.EmptyBucketStaysEmpty` | src/api/policies/instance/limits.rs:444-447 | a debit on an empty bucket leaves it at 0, in both build profiles |
| `InstanceLimits.SentinelDebitEmptiesBucket` | src/api/policies/instance/limits.rs:156-166 | a debit on a bucket at `u64::MAX` sets it to 0 (a debit of `i64::MIN` panics instead) |
| `InstanceLimits.SentinelCreditOverflows` | src/api/policies/instance/limits.rs:165 | any positive credit to a bucket at `u64::MAX` panics with overflow checks on; without them a credit of k wraps to k − 1 |
| `InstanceLimits.CreditIgnoresCeiling` | src/api/policies/instance/limits.rs:165 | a credit can leave `remaining` above `limit`: there is no clamp |
| `InstanceLimits.DebitsSaturate` | src/api/policies/instance/limits.rs:437-448 | a run of debits on a bucket at or below `i64::MAX` never panics and leaves `max(0, remaining + sum of the debits)` |
| `InstanceLimits.DebitBelowZeroExample` | src/api/policies/instance/limits.rs:437-448 | the unit test: remaining 1, debited by 2, is 0; debited again by 2123123, it stays 0 |
| `InstanceLimits.LimitRef.AddRemaining` | src/api/policies/instance/limits.rs:156-166 | the in-place update sets `remaining` to the checked result, leaves it unchanged on a panic, and never changes `bucket`, `limit` or `reset` |
| `InstanceLimits.IterOrderIsPermutation` | src/api/policies/instance/limits.rs:183-196 | the iteration order lists each of the ten categories exactly once |
| `InstanceLimits.Limits.Iter` | src/api/policies/instance/limits.rs:183-196 | yields ten buckets, the i-th being the struct's field for the i-th category of the order absolute_messages, absolute_register, auth_login, auth_register, ip, global, error, guild, webhook, channel; for a well-formed struct the i-th bucket's tag is that category; nothing is modified |
| `InstanceLimits.Configured` | src/api/policies/instance/limits.rs:311-400 | a bucket filled from its window is tagged with its own category and starts full (`limit == remaining`) |
| `InstanceLimits.LimitFor` | src/api/policies/instance/limits.rs:217-425 | the bucket chosen for a category is tagged with that category |
| `InstanceLimits.LimitsFor` | src/api/policies/instance/limits.rs:217-427 | the bucket map has exactly the ten categories as keys, and each entry is tagged with its key |
| `InstanceLimits.CheckLimits` | src/api/policies/instance/limits.rs:217-427 | replaying the source's ten inserts and two conditional overwrites yields exactly `LimitsFor(config)` |
| `InstanceLimits.AllInsertedUnlimited` | src/api/policies/instance/limits.rs:219-309 | after the ten inserts of the disabled branch every category is the unlimited sentinel |
| `InstanceLimits.AllInsertedConfigured` | src/api/policies/instance/limits.rs:310-400 | after the ten inserts of the enabled branch every category holds the bucket built from its own window |
| `InstanceLimits.OverridesComplete` | src/api/policies/instance/limits.rs:403-427 | applying the two absolute overrides to either branch's buckets gives `LimitsFor(config)` |
| `InstanceLimits.RateDisabledMeansUnlimited` | src/api/policies/instance/limits.rs:219-309 | with `rate.enabled` false, every category has `limit == remaining == reset == u64::MAX` |
| `InstanceLimits.RateEnabledUsesWindows` | src/api/policies/instance/limits.rs:310-400 | with `rate.enabled` true, each route category gets `limit = remaining = count` and `reset = window` from its own window (Ip from `rate.ip`, and so on), and each absolute category whose toggle is on gets `limit`/`window` from its absolute window |
| `InstanceLimits.AbsoluteTogglesOverride` | src/api/policies/instance/limits.rs:403-425 | a switched-off register or sendMessage toggle makes AbsoluteRegister or AbsoluteMessage unlimited whatever `rate.enabled` is, and the toggles affect no other category |
| `InstanceLimits.TenBuckets` | src/api/policies/instance/limits.rs:218-427 | the bucket map always has exactly ten entries, one per category, each tagged with its key |
| `Schemas.NewRegisterSchema` | src/api/schemas.rs:54-90 | returns `Ok` exactly when the username is 2..32 bytes and the password is absent or 1..72 bytes; a bad username gives the username message; a good username with a bad password gives the password message; on success every field equals its argument |
| `Schemas.UsernameCheckedFirst` | src/api/schemas.rs:66-77 | for any values of the other fields, when both username and password are bad, the username error is returned |
| `Schemas.AbsentPasswordNeverRejected` | src/api/schemas.rs:71 | for any values of the other fields, without a password the result is `Ok` exactly when the username is 2..32 bytes |

`LimitsFor` is a function, so equal policies always give equal bucket maps.

## Left out

- Fetching and decoding the policy in `check_limits` (limits.rs:200-216) is left out. That covers the HTTP client, the URL building, the `.await`s, the JSON decode and the panics when they fail. It is network I/O and foreign code, so the model starts from a decoded `Config`.
- The `Display` implementation of `Limit` (limits.rs:145-153) is left out. It only formats diagnostics and relies on integer-to-decimal formatting.
- The non-rate policy fields (`User`, `Guild`, `Message`, `Channel`) are carried as plain datatypes. The mapping never reads them.
- `instance.rs` is not part of this model: it only does an HTTP GET and a decode.
- The integration tests `tests/channel.rs` and `tests/relationships.rs` are not part of this model: they need a live server.
- `resume.rs` is not part of this model: it is a data struct with no behaviour.
- `LoginSchema`, `TotpSchema` and the serde derives of `schemas.rs` are left out. They are data only.
- Concurrent access to the buckets is left out. The source has no locking of its own.
- A panic is shown as an `Overflow` outcome, with the bucket left unchanged (the unwinding itself is not modelled). `LimitRef.AddRemaining` returns it as a flag.
- `LimitRef` stands for a `Limit` reached through `&mut`. The model does not say where that place lives: a `Limits` field or a `HashMap` entry.
- `Limits` has no constructor in the source, and none here. `Valid()` (each field tagged with its own category) is an assumption about how callers fill the struct, and `Iter` states its tag ordering only under it.
