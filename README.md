# CyberFlake snowflake codec and account/boost records, in Dafny

This project models the identifier generator of the PlayerBerry boosting
library and three small stateful records that sit beside it.

- **CyberFlake** (`src/utils/timer.js`) builds a 64-bit layout, from the most
  significant bit down:
  - a millisecond offset from the epoch 2015-01-01T00:00:00.000Z;
  - a 5-bit worker id, which is always 1;
  - a 5-bit process id;
  - a 12-bit sequence number taken from a module-level counter.

  `generate` packs the value with BigInt shifts and ORs and returns it as a
  decimal string. `deconstruct`, `getTimestamp` and `calculateDuration` read
  the fields back with shifts and masks.
- **Ticket** (`src/account/ticket.js`): a support ticket. Its status and
  priority are checked against allow-lists, and it cannot be resolved twice
  in a row.
- **Trust** (`src/account/trust.js`): an unbounded point counter.
- **Boost** (`src/boost/index.js`): a container of clients, boosters and
  tickets, each looked up by the first matching id. Boosters and tickets are
  appended to it in place; the client list is set only by the constructor.

## Modules

- `Wrappers`: `Option` and `Result`.
- `Bits`:
  - powers of two;
  - BigInt shifts as multiplication and floor division;
  - a bitwise AND and OR on integers, defined bit by bit.

  It also proves that a low mask is a remainder and that an OR of disjoint
  bits is a sum.
- `Numerals`:
  - `toString(radix)` for non-negative values, and its inverse on digit strings;
  - the decimal `toString` of any integer;
  - `padStart`.
- `Snowflake`:
  - the codec, as pure functions;
  - the class `CyberFlake`, whose field `increment` is the module counter and
    whose method `Generate` reads, resets and post-increments it.
- `Tickets` and `TrustLevel`: classes whose methods update their fields in
  place. Each ticket method is specified by a pure transition function on
  the ticket's record.
- `Boosts`: the class `Boost`, with its arrays as `seq` fields, and a generic
  first-match search equivalent to `Array.prototype.find`.

Two conventions run through the model:

- **Time is a parameter.** `now` stands for `Date.now()` or `new Date()` at
  the time of the call. Dates are integer ticks.
- **Thrown exceptions are `Err` results.** A method that throws leaves its
  object unchanged, except where the code says otherwise (see
  `GenerateStep`).

**The counter cycles through 4095 values.** The 12-bit sequence field could
hold 4096 values, but the code resets the counter when it is `>= 4095`, and
the reset happens before the counter is used (timer.js lines 30-31). So it
emits 0..4094, and a burst at a frozen millisecond repeats after 4095 calls
(`Snowflake.BurstPeriod`).

## Model

| member | source | states |
|---|---|---|
| `Snowflake.Epoch` | src/utils/timer.js:8 | The epoch constant 1420070400000 is the number of milliseconds from 1970-01-01 to 2015-01-01 in the Gregorian calendar. |
| `Snowflake.ResolveTimestamp` | src/utils/timer.js:21-27 | The argument is rejected with the TypeError exactly when it is not a number or is NaN. A missing argument becomes `now`; a Date becomes its time value. |
| `Snowflake.SequenceUsed` | src/utils/timer.js:30-32 | The sequence number a call uses is the counter when below 4095, and 0 otherwise, so it is always below 4095. |
| `Snowflake.Pack` | src/utils/timer.js:35 | The packed value has the offset as its quotient by 2^22 and `2^17 + increment` as its remainder: the offset sits above bit 22, the worker id 1 at bit 17 and the sequence number in bits 0-11. |
| `Snowflake.PackIsBitwiseOr` | src/utils/timer.js:35 | For a sequence number below 4096, `(offset << 22) OR (1 << 17) OR increment` equals `offset*2^22 + 2^17 + increment`. |
| `Snowflake.PackBits` | src/utils/timer.js:35 | The OR expression, computed as written, yields `Pack(offset, increment)`. |
| `Snowflake.Returned` | src/utils/timer.js:36 | The returned decimal string parses back to the BigInt it was made from, whenever that BigInt is non-negative. Errors pass through unchanged. |
| `Snowflake.GenerateStep` | src/utils/timer.js:21-37 | A rejected argument throws and leaves the counter unchanged. A non-integer number throws after the reset, so the counter is left reset but not advanced. A call succeeds exactly for an integral timestamp t. Its value is then `Pack(t - EPOCH, sequence used)`, and it leaves the counter one past the sequence number used. A counter that starts in 0..4095 stays there. |
| `Snowflake.DateIsItsTime` | src/utils/timer.js:22-24 | `generate(date)` behaves exactly like `generate(date.getTime())`, in both result and counter. |
| `Snowflake.CyberFlake.constructor` | src/utils/timer.js:9 | The counter starts at 0. |
| `Snowflake.CyberFlake.Generate` | src/utils/timer.js:21-37 | The returned string and the new counter are those of `GenerateStep` from the old counter. The counter stays within 0..4095. |
| `Snowflake.Binary` | src/utils/timer.js:57 | The binary field is a string of '0' and '1' characters, at least 64 long. |
| `Snowflake.Deconstruct` | src/utils/timer.js:45-59 | Deconstruction succeeds exactly when the string is a decimal literal. The worker and process ids are then at most 31, and the sequence is at most 4095. |
| `Snowflake.DeconstructValue` | src/utils/timer.js:46-57 | For a string that parses to n, the fields are `(n >> 22) + EPOCH`, `(n >> 17) & 31`, `(n >> 12) & 31`, `n & 4095` and the padded binary of n. |
| `Snowflake.UnpackPacked` | src/utils/timer.js:54-56 | Shifting and masking a packed value gives back its offset and its sequence number. The worker id reads 1. The process id reads 0, because the packer never writes bits 12-16. |
| `Snowflake.DeconstructPacked` | src/utils/timer.js:45-59 | The decimal string of a value packed at t >= EPOCH deconstructs to timestamp t, worker id 1, process id 0, the sequence number used, and that value's binary. |
| `Snowflake.GeneratedFields` | src/utils/timer.js:35-56 | Every id generated from an integral t >= EPOCH deconstructs to timestamp t, worker id 1, process id 0 and the sequence number the call used. |
| `Snowflake.DeconstructRecompose` | src/utils/timer.js:46-56 | For any decimal literal, the four deconstructed fields put back at their bit offsets sum to the parsed value, so no bit is lost. |
| `Snowflake.Recompose` | src/utils/timer.js:47-56 | For any n >= 0, `(n>>22)*2^22 + ((n>>17)&31)*2^17 + ((n>>12)&31)*2^12 + (n&4095) == n`. |
| `Snowflake.BinaryIsBase2` | src/utils/timer.js:57 | The binary field is the base-2 rendering of the value, left-padded with '0' to at least 64 characters. |
| `Snowflake.BinaryWidth` | src/utils/timer.js:57 | The binary field is exactly 64 characters long if and only if the value is below 2^64. |
| `Snowflake.GeneratedFits64Bits` | src/utils/timer.js:35 | When the offset fits in 41 bits, the id is non-negative, below 2^63, and its binary field is exactly 64 characters. |
| `Snowflake.GetTimestamp` | src/utils/timer.js:67-69 | Succeeds exactly when the string is a decimal literal. The result is never before EPOCH, and its offset from EPOCH is the parsed value floor-divided by 2^22: `offset*2^22 <= n < (offset+1)*2^22`. |
| `Snowflake.TimestampOfDeconstruct` | src/utils/timer.js:67-69 | `getTimestamp` fails exactly when `deconstruct` does, and otherwise equals its timestamp field. |
| `Snowflake.GenerateRoundTrip` | src/utils/timer.js:67-69 | For an integral t >= EPOCH, `getTimestamp(generate(t)) == t`. |
| `Snowflake.CalculateDuration` | src/utils/timer.js:78-83 | Succeeds exactly when both timestamps parse. The result is a non-negative number equal to `t1 - t2` or `t2 - t1`. |
| `Snowflake.DurationOfTimestamps` | src/utils/timer.js:78-83 | The duration is exactly the distance `abs(t1 - t2)` between the two timestamps. |
| `Snowflake.DurationSymmetric` | src/utils/timer.js:78-83 | Swapping the two snowflakes does not change the duration, nor whether it throws. |
| `Snowflake.DurationOfGenerated` | src/utils/timer.js:35-83 | Two ids generated at t1, t2 >= EPOCH are `abs(t1 - t2)` apart, whatever counters they used. |
| `Snowflake.BurstCall` | src/utils/timer.js:30-35 | Call i of a run of calls is an ordinary call made with the counter left by the first i calls. |
| `Snowflake.BurstElement` | src/utils/timer.js:30-35 | Call i of a run at a fixed millisecond t is `Pack(t - EPOCH, s)`, where s is the sequence number the counter after i calls gives. |
| `Snowflake.SequenceCycle` | src/utils/timer.js:30-35 | Starting from sequence number s, call i uses `s + i`, wrapping to 0 after 4094. |
| `Snowflake.BurstDistinct` | src/utils/timer.js:30-36 | At a fixed millisecond, calls i < j < 4095 return different strings. |
| `Snowflake.BurstPeriod` | src/utils/timer.js:30-36 | At a fixed millisecond, 4095 consecutive calls return pairwise distinct strings, and call 4096 returns the same string as the first. |
| `Bits.AndLowMask` | src/utils/timer.js:54-56 | Masking with `2^k - 1` is the remainder modulo `2^k`, for negative values too. |
| `Bits.OrDisjoint` | src/utils/timer.js:35 | An OR with a value below `2^k`, of a number whose low k bits are clear, is their sum. |
| `Bits.Shl` | src/utils/timer.js:35 | BigInt `x << k` clears the low k bits, and a right shift by k gives x back. |
| `Bits.Shr` | src/utils/timer.js:47-56 | BigInt `x >> k` is the floor of `x / 2^k`: `r*2^k <= x < (r+1)*2^k`, negative x included. |
| `Bits.And` | src/utils/timer.js:54-56 | BigInt `a & b`, bit by bit, is never above the mask b. `Bits.AndLowMask` gives its value for a low mask. |
| `Bits.Or` | src/utils/timer.js:35 | The BigInt bitwise OR of a and b, bit by bit, only sets bits and never carries, so it lies between a and a + b. `Bits.OrDisjoint` gives its value for disjoint bits. |
| `Numerals.Render` | src/utils/timer.js:57 | `toString(radix)` of a non-negative value is a non-empty string of digits of that radix, and starts with '0' only for zero. |
| `Numerals.Parse` | src/utils/timer.js:46 | `BigInt(string)` as modelled: it succeeds exactly on a non-empty string of digits. |
| `Numerals.IntToString` | src/utils/timer.js:36 | BigInt `toString()` is a non-empty string that starts with '-' exactly when the value is negative. |
| `Numerals.DecimalRoundTrip` | src/utils/timer.js:36-46 | Parsing the decimal string of a non-negative integer gives back that integer. |
| `Numerals.IntToStringInjective` | src/utils/timer.js:36 | Different integers have different decimal strings. |
| `Numerals.RenderValue` | src/utils/timer.js:57 | The digits of `toString(radix)` have the rendered number as their value. |
| `Numerals.PadStart` | src/utils/timer.js:57 | The result is at least `width` long, ends with the input, and is filled with the pad character in front. |
| `Tickets.OrDefault` | src/account/ticket.js:46-53 | JavaScript's `value OR fallback` on a string that may be absent: an absent or empty value gives the fallback. |
| `Tickets.Created` | src/account/ticket.js:28-73 | Status defaults to 'open' and priority to 'normal' when falsy, and createdAt to now when absent. Every other field is copied. |
| `Tickets.StatusUpdate` | src/account/ticket.js:83-90 | Succeeds if and only if the status is one of the four allowed. Otherwise throws `Invalid status`. On success it sets status and updatedAt only. |
| `Tickets.PriorityUpdate` | src/account/ticket.js:100-107 | Succeeds if and only if the priority is low, normal or high. Otherwise throws `Invalid priority`. On success it sets priority and updatedAt only. |
| `Tickets.Resolution` | src/account/ticket.js:116-123 | Succeeds if and only if the status, whatever it is, is not 'resolved'. On success it sets status, resolvedAt and updatedAt only. |
| `Tickets.ResolveTwice` | src/account/ticket.js:117-118 | A second resolve straight after a successful one always throws. |
| `Tickets.ResolveAfterReopen` | src/account/ticket.js:83-123 | The refusal is not permanent: after `updateStatus('open')` a resolved ticket can be resolved again, and resolvedAt moves to the new time. |
| `Tickets.RunKeepsValid` | src/account/ticket.js:83-123 | A ticket whose status and priority are allowed keeps them allowed through any sequence of calls. |
| `Tickets.RunKeepsIdentity` | src/account/ticket.js:83-123 | No call changes the id, the issue or createdAt. |
| `Tickets.RunKeepsResolvedAt` | src/account/ticket.js:116-123 | Once resolvedAt is set, no call clears it. |
| `Tickets.Ticket.constructor` | src/account/ticket.js:28-73 | The new ticket's fields are `Created(options, now)`. |
| `Tickets.Ticket.UpdateStatus` | src/account/ticket.js:83-90 | The new fields are those of `StatusUpdate`. A rejected status returns the error and changes nothing. |
| `Tickets.Ticket.UpdatePriority` | src/account/ticket.js:100-107 | The new fields are those of `PriorityUpdate`. A rejected priority returns the error and changes nothing. |
| `Tickets.Ticket.Resolve` | src/account/ticket.js:116-123 | The new fields are those of `Resolution`. On a resolved ticket it returns the error and changes nothing. |
| `TrustLevel.Trust.constructor` | src/account/trust.js:11-17 | The point is 50 when no value is given, and the given value otherwise, 0 included. |
| `TrustLevel.Trust.Point` | src/account/trust.js:23-25 | The getter returns the stored point; as a function it has no side effect. |
| `TrustLevel.Trust.Increase` | src/account/trust.js:31-33 | Adds exactly 1. |
| `TrustLevel.Trust.Decrease` | src/account/trust.js:39-41 | Subtracts exactly 1. |
| `TrustLevel.Trust.Punishment` | src/account/trust.js:47-49 | Subtracts exactly 5. |
| `TrustLevel.IncreaseThenDecrease` | src/account/trust.js:23-41 | Reading the point through the getter, then `increase` followed by `decrease`, gives back the integer point it started from. |
| `TrustLevel.PunishedBelowZero` | src/account/trust.js:47-49 | Nothing clamps the point: one punishment takes 0 to -5. |
| `Boosts.Find` | src/boost/index.js:118 | `find` returns the element at the least index whose id matches, or nothing when no element matches. |
| `Boosts.FirstMatchUnique` | src/boost/index.js:118 | That characterisation admits exactly one result. |
| `Boosts.FindAppend` | src/boost/index.js:155-167 | After appending, a match among the old elements still wins; the new elements count only when there is none. |
| `Boosts.Boosters` | src/boost/index.js:130 | A single booster is pushed alone; an array pushes all its elements in order. |
| `Boosts.SettingsOf` | src/boost/index.js:62-66 | version, count and discount fall back to 'retail', 1 and 1 whenever the given value is falsy, so 0 becomes 1. The results are never falsy. |
| `Boosts.Boost.constructor` | src/boost/index.js:30-103 | The client list is `[client]` when one is given, else empty. The roster, tickets and modLog start empty, and the three dates start null. |
| `Boosts.Boost.IsCompleted` | src/boost/index.js:105-107 | Holds exactly when completedAt is set. |
| `Boosts.Boost.GetClient` | src/boost/index.js:117-119 | Returns the first client with the id, or nothing. |
| `Boosts.Boost.GetRoster` | src/boost/index.js:141-143 | Returns the first booster with the id, or nothing. |
| `Boosts.Boost.GetTicket` | src/boost/index.js:166-168 | Returns the first ticket with the id, or nothing. |
| `Boosts.Boost.AddRoster` | src/boost/index.js:129-131 | The roster becomes the old roster followed by the given boosters. Every other field is unchanged. |
| `Boosts.Boost.AddTicket` | src/boost/index.js:154-156 | The ticket list gains exactly the one ticket at its end. Every other field is unchanged. |
| `Boosts.AddThenGetTicket` | src/boost/index.js:154-168 | After `addTicket(t)`, `getTicket(t.id)` returns an earlier ticket with that id if there is one, and t otherwise. |

## Left out

- **The clock.** `Date.now()` and `new Date()` are the parameter `now` (an integer tick), and Date objects are those ticks.
- **The lazy `date` getter** of the deconstructed record (timer.js lines 51-53) is not modelled, because it only wraps the timestamp in a Date.
- **`Number(...)` conversions** in `deconstruct` and `getTimestamp` are exact integers in the model. Above 2^53 the code would round them, and the model does not capture that rounding.
- **JavaScript numbers.** They are integers, NaN, or one "non-integer" case covering fractions and the two infinities. Which non-integer it is does not matter, because `BigInt` rejects them all.
- **`BigInt(string)` leniency.** The code accepts surrounding whitespace, a sign, hex, octal and binary prefixes, and the empty string (as 0); the model rejects them all. The model accepts only non-empty strings of decimal digits.
  One consequence: a negative generated id (from a timestamp before EPOCH) is returned as a string with a '-', and the model does not deconstruct it.
- Snowflake.Deconstruct: fails on the lenient literals above, where the code succeeds; so do `Snowflake.GetTimestamp` and `Snowflake.CalculateDuration`, which parse the same way. This is also why `Snowflake.GetTimestamp` is never before EPOCH.
- **Option values of other types.** The ticket and boost constructors apply `||` to values of any type. The model types each option and treats only "absent", `""`, `0` and `0.0` as falsy. NaN counts and discounts are not modelled.
- **null and undefined** are both `None`. `Trust`'s default parameter applies to undefined only, so `new Trust(null)` (point null) is not modelled.
- **`addRoster` and `getClient` on arbitrary objects.** Only objects with an integer `id` are modelled, and `Array.isArray` is the `RosterArg` case split.
- TrustLevel.IncreaseThenDecrease: holds for the integer points the model allows. The code's point is a JavaScript number: `0.1` increased then decreased is `0.10000000000000009`, and `+= 1` rounds above 2^53. `TrustLevel.Trust` models the point as an unbounded integer.
- Tickets.Resolution: stamps `resolvedAt` and `updatedAt` with the same `now`, and so does `Tickets.Ticket.Resolve`. The code calls `new Date()` twice (ticket.js lines 121-122), which gives two distinct objects that may be a millisecond apart. The model's `resolvedAt == updatedAt` is therefore not guaranteed by the code.
- Boosts.Boost.GetRoster: returns a copy of a value, and so do `GetClient` and `GetTicket`; `AddRoster` and `AddTicket` store values. The code returns and pushes the objects themselves, so a caller that mutates a found or pushed booster or ticket mutates the boost's list too. The model cannot express that aliasing.
- **modLog** is never written by the code, so its element type is a placeholder.
- **Concurrency** is not modelled: the counter is a single field written by one method in a single-threaded program.
- **`toJSON`, the attribute-holder classes and enums.** `src/account/index.js`, `src/account/transaction.js`, `src/boost/raid.js`, `src/boost/dungeon.js`, `src/boost/dungeon/index.js`, `src/boost/dungeon/detail.js` and `src/utils/constant.js` are not part of this model. They hold attributes, serialise them, or list constants.
- **The scripts under `tests/`** are not part of this model. They time and print generated ids and assert nothing.
