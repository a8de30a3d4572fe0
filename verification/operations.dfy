/** The three URM instructions Z(x), I(x) and J(x, y, q) as pure functions.

Each operation first checks its arguments (a Kotlin `require`, which throws
IllegalArgumentException) and only then the registry contents (a Kotlin
`checkNotNull`, which throws IllegalStateException). Both exceptions are
modelled as error cases of `Result`; the operation has no effect when it
fails, because every check happens before the single write.
 */
module Operations {
  import opened Kurm

  /** The message of every failed position check. */
  const PositionMessage := "Position must be positive number"
  /** The message of a failed jump-target check. */
  const InstructionMessage := "Instruction must be positive number"
  /** The message of a read from an unset register. */
  const UninitializedMessage := "Register must be initialized"

  /** Outcome of one operation: a new value, or one of the two exceptions. */
  datatype Result<T> =
    | Ok(value: T)
    | ArgError(message: string)    // IllegalArgumentException
    | StateError(message: string)  // IllegalStateException

  /** URM `Z(x)`: set register `position` to 0, whether or not it was set. */
  function Zero(registry: Registry, position: int): (r: Result<Registry>)
    ensures r.ArgError? <==> position <= 0
    ensures r.ArgError? ==> r.message == PositionMessage
    ensures !r.StateError?
    ensures r.Ok? ==> Get(r.value, position) == Some(0)
    ensures r.Ok? ==> forall p :: p != position ==> Get(r.value, p) == Get(registry, p)
  {
    if position <= 0 then ArgError(PositionMessage)
    else Ok(Set(registry, position, 0))
  }

  /** URM `I(x)` in strict mode: add one to a register that holds a value;
      an unset register is an error, reported only once the position itself
      has been accepted. */
  function Increment(registry: Registry, position: int): (r: Result<Registry>)
    ensures r.ArgError? <==> position <= 0
    ensures r.ArgError? ==> r.message == PositionMessage
    ensures r.StateError? <==> position > 0 && Get(registry, position).None?
    ensures r.StateError? ==> r.message == UninitializedMessage
    ensures r.Ok? ==> position in registry && Get(r.value, position) == Some(registry[position] + 1)
    ensures r.Ok? ==> forall p :: p != position ==> Get(r.value, p) == Get(registry, p)
  {
    if position <= 0 then ArgError(PositionMessage)
    else
      match Get(registry, position)
      case None => StateError(UninitializedMessage)
      case Some(v) => Ok(Set(registry, position, v + 1))
  }

  /** URM `J(x, y, q)`: the next value of the instruction pointer. It is `q`
      when registers `x` and `y` hold equal values and `current + 1`
      otherwise. The registry is only read, so only the pointer is returned. */
  function Jump(registry: Registry, positionX: int, positionY: int, current: int, instruction: int)
    : (r: Result<int>)
    ensures r.ArgError? <==> positionX <= 0 || positionY <= 0 || instruction <= 0
    ensures r.ArgError? ==>
      r.message == (if positionX <= 0 || positionY <= 0 then PositionMessage else InstructionMessage)
    ensures r.StateError? <==>
      positionX > 0 && positionY > 0 && instruction > 0
      && (Get(registry, positionX).None? || Get(registry, positionY).None?)
    ensures r.StateError? ==> r.message == UninitializedMessage
    ensures r.Ok? ==> positionX in registry && positionY in registry
    ensures r.Ok? && registry[positionX] == registry[positionY] ==> r.value == instruction
    ensures r.Ok? && registry[positionX] != registry[positionY] ==> r.value == current + 1
  {
    if positionX <= 0 || positionY <= 0 then ArgError(PositionMessage)
    else if instruction <= 0 then ArgError(InstructionMessage)
    else
      match (Get(registry, positionX), Get(registry, positionY))
      case (Some(x), Some(y)) => Ok(if x == y then instruction else current + 1)
      case _ => StateError(UninitializedMessage)
  }

  /** One URM instruction, as the argument list of the Kotlin call. */
  datatype Instruction =
    | Z(position: int)
    | I(position: int)
    | J(positionX: int, positionY: int, target: int)

  /** The mutable state the Kotlin operations act on: the registry and the
      `current` field of the instruction set. */
  datatype Machine = Machine(registry: Registry, current: int)

  /** The state after a call, and whether the call returned or threw. */
  datatype Effect = Effect(after: Machine, status: Result<()>)

  /** The arguments a `require` accepts. */
  predicate ArgumentsValid(instruction: Instruction) {
    match instruction
    case Z(p) => p > 0
    case I(p) => p > 0
    case J(x, y, q) => x > 0 && y > 0 && q > 0
  }

  /** The registers a `checkNotNull` inspects. */
  function Reads(instruction: Instruction): set<int> {
    match instruction
    case Z(_) => {}
    case I(p) => {p}
    case J(x, y, _) => {x, y}
  }

  /** Perform one call on a machine. A call that throws leaves registry and
      pointer exactly as they were; `J` never writes the registry; `Z` and
      `I` never move the pointer. */
  function Execute(m: Machine, instruction: Instruction): (e: Effect)
    ensures e.status.ArgError? <==> !ArgumentsValid(instruction)
    ensures e.status.StateError? <==> ArgumentsValid(instruction) && !(Reads(instruction) <= m.registry.Keys)
    ensures !e.status.Ok? ==> e.after == m
    ensures instruction.J? ==> e.after.registry == m.registry
    ensures !instruction.J? ==> e.after.current == m.current
    ensures e.status.Ok? && instruction.Z? ==> e.after.registry == Set(m.registry, instruction.position, 0)
    ensures e.status.Ok? && instruction.I? ==>
      instruction.position in m.registry
      && e.after.registry == Set(m.registry, instruction.position, m.registry[instruction.position] + 1)
  {
    match instruction
    case Z(p) =>
      (match Zero(m.registry, p)
       case Ok(reg) => Effect(m.(registry := reg), Ok(()))
       case ArgError(msg) => Effect(m, ArgError(msg))
       case StateError(msg) => Effect(m, StateError(msg)))
    case I(p) =>
      (match Increment(m.registry, p)
       case Ok(reg) => Effect(m.(registry := reg), Ok(()))
       case ArgError(msg) => Effect(m, ArgError(msg))
       case StateError(msg) => Effect(m, StateError(msg)))
    case J(x, y, q) =>
      (match Jump(m.registry, x, y, m.current, q)
       case Ok(next) => Effect(m.(current := next), Ok(()))
       case ArgError(msg) => Effect(m, ArgError(msg))
       case StateError(msg) => Effect(m, StateError(msg)))
  }

  /** `Z` then `I` on any positive position leaves that register holding 1. */
  lemma ZeroThenIncrement(registry: Registry, position: int)
    requires position > 0
    ensures Zero(registry, position).Ok?
    ensures Increment(Zero(registry, position).value, position) == Ok(Set(registry, position, 1))
  {
    SetOverwrites(registry, position, 0, 1);
  }

  /** `Z` after `I` forgets the incremented value: the result is the same as
      zeroing the original registry. */
  lemma IncrementThenZero(registry: Registry, position: int)
    requires position > 0 && position in registry
    ensures Increment(registry, position).Ok?
    ensures Zero(Increment(registry, position).value, position) == Zero(registry, position)
  {
    SetOverwrites(registry, position, registry[position] + 1, 0);
  }

  /** A jump's outcome depends only on the two registers it compares. */
  lemma JumpReadsOnlyItsRegisters(a: Registry, b: Registry, x: int, y: int, current: int, q: int)
    requires Get(a, x) == Get(b, x) && Get(a, y) == Get(b, y)
    ensures Jump(a, x, y, current, q) == Jump(b, x, y, current, q)
  {
  }
}
