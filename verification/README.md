# URM operations and the alternating demo servers, in Dafny

This project models two small pieces of the `publications` teaching repository.

**The URM core of `kurm`.** The Unlimited Register Machine's register file is a
partial map from register position to integer (`Kurm.Registry`). The three
instructions are pure functions that return a `Result`:

- `Z(x)` is `Operations.Zero`.
- `I(x)` is `Operations.Increment`. It runs in strict mode, so an unset register is an error.
- `J(x, y, q)` is `Operations.Jump`. It computes the next value of the instruction set's `current` pointer.

Kotlin's `require` throws IllegalArgumentException; it is the `ArgError` case.
Kotlin's `checkNotNull` throws IllegalStateException; it is the `StateError` case.
`Operations.Execute` applies one call to a machine, meaning a registry plus the `current` pointer.
Its contract states that a call which throws changes nothing.

**The `/info` counter of the two Express demo servers.** Each server keeps one
integer counter. `/info` picks the base record (`Data`) or the extended record
(`DataOptional`, which adds `optional`) by the counter's parity, then moves the
counter by one. `/` returns a fixed greeting.

- `Data` holds the record shapes with their Kotlin default values.
- `Routes` handles a sequence of requests for any step function. Its lemma `ServeCycles` proves that the records take turns whenever two steps restore the counter.
- `KotlinServer` (`server.kt`) and `VanillaServer` (`vanilla_server.js`) supply the start value, the greeting and the step.
- For each server, `ServeFromStart` proves four things: the counter stays in a two-value range, replies strictly alternate, the first reply is the base record, and `/` always returns the greeting.

Where the code and its documentation disagree, the model follows the code.
The KDoc of `zero` and `increment` says positions "less than 0" are rejected.
The code requires `position > 0`, so position 0 is rejected too, and so it is here.

Kotlin's `%` truncates toward zero and Dafny's is Euclidean. The two agree on
whether `count % 2 == 0`, which is the only way either server uses `%`.

## Model

| member | source | states |
|---|---|---|
| Kurm.Set | TDDWithURMAndKotlin/kurm/src/main/kotlin/net/sierisimo/kurm/Registry.kt:4-6 | reads are partial: a position reads no value until it is written; after a write the position reads back the written value, every other position reads what it read before, and only that position can become set |
| Kurm.SetOverwrites | TDDWithURMAndKotlin/kurm/src/test/kotlin/net/sierisimo/kurm/operations/OperationsTest.kt:13-20 | a second write to the same position replaces the first entirely |
| Kurm.SetCommutes | TDDWithURMAndKotlin/kurm/src/test/kotlin/net/sierisimo/kurm/operations/OperationsTest.kt:13-20 | writes to different positions do not interfere, so their order does not matter |
| Operations.Zero | TDDWithURMAndKotlin/kurm/src/main/kotlin/net/sierisimo/kurm/operations/Operations.kt:14-18 | fails with an argument error exactly when the position is not positive (0 included); otherwise that register reads 0, whether or not it was set, and no other register changes; never a state error |
| Operations.Increment | TDDWithURMAndKotlin/kurm/src/main/kotlin/net/sierisimo/kurm/operations/Operations.kt:30-37 | an argument error exactly for a non-positive position, even when the register is unset; a state error exactly for a positive unset position; otherwise the register goes from v to v+1 and no other register changes |
| Operations.Jump | TDDWithURMAndKotlin/kurm/src/main/kotlin/net/sierisimo/kurm/operations/Operations.kt:42-58 | an argument error exactly when either position or the target is non-positive, with the position message taking precedence; a state error exactly when the arguments are valid and either register is unset; otherwise the pointer becomes the target if the registers are equal and current+1 if not |
| Operations.Execute | TDDWithURMAndKotlin/kurm/src/main/kotlin/net/sierisimo/kurm/operations/Operations.kt:14-58 | a call that throws leaves the registry and the pointer unchanged; a jump never writes the registry; zero and increment never move the pointer; the error kind is decided by the argument checks first and the register checks second |
| Operations.ZeroThenIncrement | TDDWithURMAndKotlin/kurm/src/test/kotlin/net/sierisimo/kurm/operations/OperationsTest.kt:60-67 | zeroing then incrementing a positive position leaves it holding 1, from any registry |
| Operations.IncrementThenZero | TDDWithURMAndKotlin/kurm/src/test/kotlin/net/sierisimo/kurm/operations/OperationsTest.kt:83-99 | zeroing after an increment gives the same registry as zeroing directly |
| Operations.JumpReadsOnlyItsRegisters | TDDWithURMAndKotlin/kurm/src/main/kotlin/net/sierisimo/kurm/operations/Operations.kt:47-48 | a jump's outcome depends on no register other than the two it compares |
| Data.SharedFields | EvenServer/even_server_express/src/main/kotlin/Data.kt:1-18 | for any id, name, elements and optional value, both shapes pass id, name and elements to the base part unchanged, so the two shapes share their base fields |
| Data.DefaultShapes | EvenServer/even_server_express/src/main/kotlin/Data.kt:1-22 | the default records share id 123, name "Sier" and one element with inner true; the extended one adds optional "Added" |
| Routes.Serve | EvenServer/even_server_express/src/main/kotlin/server.kt:13-29 | one reply per request; a reply is the greeting exactly when the request is `/`, and a record exactly when it is `/info`; without `/info` requests the counter is untouched |
| Routes.ServeCycles | EvenServer/even_server_express/src/main/kotlin/server.kt:19-26 | for a step that two applications undo, the k-th `/info` record is the first step's record for even k and the second's for odd k, and the counter ends at the start or one step past it, by the parity of the `/info` count; `/` requests in between change nothing |
| KotlinServer.Info | EvenServer/even_server_express/src/main/kotlin/server.kt:19-26 | an even counter answers the base record and is decremented; an odd counter answers the extended record with optional "Added" and is incremented; both carry the default fields; the parity always flips |
| KotlinServer.InfoTwice | EvenServer/even_server_express/src/main/kotlin/server.kt:20-25 | two `/info` calls restore the counter and answer different shapes |
| KotlinServer.ServeFromStart | EvenServer/even_server_express/src/main/kotlin/server.kt:14-29 | from the start value 2, after any requests the counter is 1 or 2; the `/info` records go base, extended, base, ... in strict alternation, starting with base; every `/` answers "Hi! Kotlin+Express server" |
| VanillaServer.Info | ToNullOrNotToNull/even_server_express/vanilla_server.js:12-25 | every record has id 123, name "Sier" and elements [{inner: true}]; an even x adds optional "Added" and is incremented; an odd x answers the base record and is decremented |
| VanillaServer.InfoTwice | ToNullOrNotToNull/even_server_express/vanilla_server.js:20-25 | two `/info` calls restore x and answer different shapes |
| VanillaServer.ServeFromStart | ToNullOrNotToNull/even_server_express/vanilla_server.js:5-32 | from the start value 1, after any requests x is 0 or 1; the `/info` records strictly alternate starting with base; every `/` answers "Hi" |
| VanillaServer.SameRecordsAsKotlinServer | ToNullOrNotToNull/even_server_express/vanilla_server.js:12-25 | given the same requests, both servers answer `/info` with the same records in the same order |

## Left out

- Express wiring is not modelled: `require`, `app.get`, `app.listen`, the port, `res.send` and `res.json`, and the logging. It is all I/O. A reply is modelled as the greeting string or the record value. JSON serialisation is not modelled.
- Concurrent requests are not modelled. Requests are handled one at a time, as the servers assume.
- Operations.Increment: uses unbounded integers, so it does not model the 32-bit wrap-around of `currentValue + 1` at `Int.MAX_VALUE`.
- Operations.Jump: uses unbounded integers, so it does not model the wrap-around of `current++` at `Int.MAX_VALUE`.
- KotlinServer.Info: uses an unbounded counter, so it does not model the 32-bit wrap-around of `count--` at `Int.MIN_VALUE` or `count++` at `Int.MAX_VALUE`. From the start value 2 the counter never leaves {1, 2}, so no reachable state wraps.
- VanillaServer.Info: uses an exact integer `x`, so it does not model the rounding of a JavaScript double beyond 2^53. From the start value 1, `x` never leaves {0, 1}, so no reachable state rounds.
- Positions and targets are unbounded integers rather than 32-bit `Int`. No check depends on the width.
- Only the `current` field of `InstructionSet` is modelled. The class itself is not part of this model.
- No URM program interpreter is modelled. The source has only the three single-instruction operations.
- The FizzBuzz kata (FizzBuzzTest.kt) is outside the modelled core.
- The null-safety client and all Gradle build scripts are not modelled. They contain no logic of the core.
- The JavaScript counter is an IEEE double. The model uses an integer, which is exact because `x` only takes the values 0 and 1.
