/** The shared-memory command protocol between client processes, the command server thread and the
    thread that registers responses (runtime/src/core/cmd_server.cc,
    libbeethoven/src/fpga_handle_impl/fpga_handle_discrete.cc, libbeethoven/src/runtime_ipc.cc).

    Every access to shared memory is a step of its own and steps of different threads interleave
    freely. A mutex is a binary semaphore, because the code unlocks from threads that did not lock. */
module CommandProtocol {
  import opened Options

  const SLOTS := 256
  const NO_SLOT := 0xffff

  /** The accelerator core a command is for. */
  datatype Target = Target(system: nat, core: nat)

  /** Index of an in-flight queue. */
  datatype Key = Key(system: nat, core: nat)

  /** The key the server files a command under: the core id passes through a uint8_t. */
  function CommandKey(t: Target): Key { Key(t.system, t.core % 256) }

  /** The key a response is looked up under: both ids pass through a uint8_t. */
  function ResponseKey(t: Target): Key { Key(t.system % 256, t.core % 256) }

  /** A command; `n` numbers the sends in the order in which they got the send lock. */
  datatype Cmd = Cmd(n: nat, target: Target, xd: bool)

  datatype Resp = Resp(key: Key, data: int)

  datatype ClientPc =
    | Idle
    // send
    | Locked(cmd: Cmd) | Written(cmd: Cmd) | Signalled(cmd: Cmd) | Taken(cmd: Cmd) | Got(cmd: Cmd, h: int)
    // get_response_from_handle, try_get_response_from_handle
    | Waiting(cmd: Cmd, h: int) | Owned(cmd: Cmd, h: int) | HasRead(cmd: Cmd, h: int, data: int)
    | Freeing(cmd: Cmd, h: int, data: int) | Raised(cmd: Cmd, h: int, data: int) | Pushed(cmd: Cmd, data: int)

  datatype ServerPc =
    | Asleep | Awake | Choosing | Chosen(id: int) | Lowered(id: int) | Allocated(id: int) | Announced(id: int)
    | Delivering(id: int) | Delivered(id: int) | Queued(id: int) | Finishing

  datatype RegisterPc =
    | Quiet | Heard(cmd: Cmd, resp: Resp) | Holding(cmd: Cmd, resp: Resp) | Front(cmd: Cmd, resp: Resp, id: int)
    | Stored(cmd: Cmd, resp: Resp, id: int) | Woken(cmd: Cmd, resp: Resp, id: int) | Popped

  /** Who has the handle of a command that is in flight or answered. */
  datatype Who = Sender | Shelf | Claimer(c: nat)

  /** History of a response slot: where on the free stack it lies, or for which command it is
      allocated, in flight, answered or being claimed. */
  datatype Slot =
    | Free(pos: nat) | Alloc(cmd: Cmd) | Flying(cmd: Cmd, who: Who) | Ready(cmd: Cmd, who: Who)
    | Claimed(cmd: Cmd, c: nat)

  datatype Holder = Nobody | ServerHolds | ClientHolds(c: nat)

  datatype State = State(
    // mutexes of the shared file, true when locked, and the server's own cmdserverlock
    sendLock: bool, serverMut: bool, recvLock: bool, freeLock: bool, wait: seq<bool>, srvLock: bool,
    // the rest of the shared file
    cmd: Cmd, waitId: int, responses: seq<Resp>, freeList: seq<int>, freeIdx: int,
    // threads, and the handles that applications hold
    clients: map<nat, ClientPc>, server: ServerPc, register: RegisterPc, handles: map<Cmd, int>,
    // the server's queues, and for each core the commands it has not answered yet
    inFlight: map<Key, seq<int>>, hardware: map<Target, seq<Cmd>>,
    // history, which no step reads
    slots: seq<Slot>, depth: int, sender: Option<nat>, holder: Holder, sent: seq<Cmd>, delivered: seq<Cmd>,
    answers: map<Cmd, int>, results: map<Cmd, int>)

  /** After init, with the server waiting for its first command. */
  function Initial(): State {
    State(false, true, true, false, seq(SLOTS, _ => true), false,
          Cmd(0, Target(0, 0), false), 0, seq(SLOTS, _ => Resp(Key(0, 0), 0)), seq(SLOTS, i => i), SLOTS - 1,
          map[], Asleep, Quiet, map[],
          map[], map[],
          seq(SLOTS, i requires 0 <= i => Free(i)), SLOTS, None, Nobody, [], [], map[], map[])
  }

  /** A step waits at a lock, goes through, or does what the code must never do: unlock a mutex that
      is not locked, index outside the free list, or take the front of a queue that is not there. */
  datatype Outcome = Blocked | Fault | Ok(s: State)

  /** What can happen next. `Send`, `Get`, `GiveUp` (a failed trylock) and `Answer` are choices of
      applications and hardware; the others run a thread's next statement. */
  datatype Action =
    | Send(c: nat, target: Target, xd: bool) | Get(c: nat, cmd: Cmd) | GiveUp(c: nat) | Client(c: nat)
    | Server | Answer(target: Target, data: int) | Register

  function PcOf(clients: map<nat, ClientPc>, c: nat): ClientPc { if c in clients then clients[c] else Idle }

  function Owed(hardware: map<Target, seq<Cmd>>, t: Target): seq<Cmd> { if t in hardware then hardware[t] else [] }

  function Goto(s: State, c: nat, pc: ClientPc): State { s.(clients := s.clients[c := pc]) }

  /** Arithmetic on the uint16_t stack index. */
  function Up(i: int): int { (i + 1) % 0x1_0000 }
  function Down(i: int): int { (i - 1) % 0x1_0000 }

  predicate InRange(i: int) { 0 <= i < SLOTS }

  predicate Shaped(s: State) {
    |s.wait| == SLOTS && |s.responses| == SLOTS && |s.freeList| == SLOTS && |s.slots| == SLOTS
  }

  // History of slot `h`: its handle moves to `who`; its response arrives; it becomes `slot`.

  function Put(slots: seq<Slot>, h: int, slot: Slot): seq<Slot> {
    if 0 <= h < |slots| then slots[h := slot] else slots
  }

  function Held(slot: Slot, who: Who): Slot {
    match slot
    case Flying(cmd, _) => Flying(cmd, who)
    case Ready(cmd, _) => Ready(cmd, who)
    case _ => slot
  }

  function Hand(slots: seq<Slot>, h: int, who: Who): seq<Slot> {
    if 0 <= h < |slots| then slots[h := Held(slots[h], who)] else slots
  }

  function Ring(slots: seq<Slot>, h: int): seq<Slot> {
    if 0 <= h < |slots| && slots[h].Flying? then slots[h := Ready(slots[h].cmd, slots[h].who)] else slots
  }

  // ---------------------------------------------------------------- send

  function SendStep(s: State, c: nat, target: Target, xd: bool): Outcome {
    if PcOf(s.clients, c) != Idle || s.sendLock then Blocked
    else
      var cmd := Cmd(|s.sent|, target, xd);
      Ok(Goto(s, c, Locked(cmd)).(sendLock := true, sender := Some(c), sent := s.sent + [cmd]))
  }

  function SendingStep(s: State, c: nat): Outcome {
    match PcOf(s.clients, c)
    case Locked(cmd) => Ok(Goto(s, c, Written(cmd)).(cmd := cmd))
    case Written(cmd) => if s.serverMut then Ok(Goto(s, c, Signalled(cmd)).(serverMut := false)) else Fault
    case Signalled(cmd) => if s.recvLock then Blocked else Ok(Goto(s, c, Taken(cmd)).(recvLock := true))
    case Taken(cmd) => Ok(Goto(s, c, Got(cmd, s.waitId)))
    case Got(cmd, h) =>
      if !s.sendLock then Fault
      else
        var s1 := Goto(s, c, Idle).(sendLock := false, sender := None);
        Ok(if cmd.xd then s1.(handles := s.handles[cmd := h], slots := Hand(s.slots, h, Shelf)) else s1)
    case _ => Blocked
  }

  // ---------------------------------------------------------------- get and try_get

  function GetStep(s: State, c: nat, cmd: Cmd): Outcome {
    if PcOf(s.clients, c) != Idle || cmd !in s.handles then Blocked
    else
      var h := s.handles[cmd];
      Ok(Goto(s, c, Waiting(cmd, h)).(handles := s.handles - {cmd}, slots := Hand(s.slots, h, Claimer(c))))
  }

  function GiveUpStep(s: State, c: nat): Outcome
    requires Shaped(s)
  {
    match PcOf(s.clients, c)
    case Waiting(cmd, h) =>
      if !InRange(h) then Fault
      else if !s.wait[h] then Blocked
      else Ok(Goto(s, c, Idle).(handles := s.handles[cmd := h], slots := Hand(s.slots, h, Shelf)))
    case _ => Blocked
  }

  function ClaimStep(s: State, c: nat): Outcome
    requires Shaped(s)
  {
    match PcOf(s.clients, c)
    case Waiting(cmd, h) =>
      if !InRange(h) then Fault
      else if s.wait[h] then Blocked
      else Ok(Goto(s, c, Owned(cmd, h)).(wait := s.wait[h := true], slots := Put(s.slots, h, Claimed(cmd, c))))
    case Owned(cmd, h) => if InRange(h) then Ok(Goto(s, c, HasRead(cmd, h, s.responses[h].data))) else Fault
    case HasRead(cmd, h, data) =>
      if s.freeLock then Blocked else Ok(Goto(s, c, Freeing(cmd, h, data)).(freeLock := true, holder := ClientHolds(c)))
    case Freeing(cmd, h, data) => Ok(Goto(s, c, Raised(cmd, h, data)).(freeIdx := Up(s.freeIdx)))
    case Raised(cmd, h, data) =>
      if InRange(s.freeIdx) then
        Ok(Goto(s, c, Pushed(cmd, data)).(
           freeList := s.freeList[s.freeIdx := h], slots := Put(s.slots, h, Free(s.freeIdx)), depth := s.depth + 1))
      else Fault
    case Pushed(cmd, data) =>
      if s.freeLock then Ok(Goto(s, c, Idle).(freeLock := false, holder := Nobody, results := s.results[cmd := data]))
        else Fault
    case _ => Blocked
  }

  predicate Sending(pc: ClientPc) { pc.Locked? || pc.Written? || pc.Signalled? || pc.Taken? || pc.Got? }

  function ClientStep(s: State, c: nat): Outcome
    requires Shaped(s)
  {
    if Sending(PcOf(s.clients, c)) then SendingStep(s, c) else ClaimStep(s, c)
  }

  // ---------------------------------------------------------------- server loop

  /** From waking up to announcing the slot. */
  function AllocateStep(s: State): Outcome
    requires Shaped(s)
  {
    match s.server
    case Asleep => if s.serverMut then Blocked else Ok(s.(server := Awake, serverMut := true))
    case Awake =>
      if !s.cmd.xd then Ok(s.(server := Announced(NO_SLOT), waitId := NO_SLOT))
      else if s.freeLock then Blocked
      else Ok(s.(server := Choosing, freeLock := true, holder := ServerHolds))
    case Choosing =>
      if InRange(s.freeIdx) then
        var id := s.freeList[s.freeIdx];
        Ok(s.(server := Chosen(id), slots := Put(s.slots, id, Alloc(s.cmd)), depth := s.depth - 1))
      else Fault
    case Chosen(id) => Ok(s.(server := Lowered(id), freeIdx := Down(s.freeIdx)))
    case Lowered(id) => if s.freeLock then Ok(s.(server := Allocated(id), freeLock := false, holder := Nobody))
      else Fault
    case Allocated(id) => Ok(s.(server := Announced(id), waitId := id))
    case _ => Blocked
  }

  function QueueOf(m: map<Key, seq<int>>, k: Key): seq<int> { if k in m then m[k] else [] }

  /** From taking cmdserverlock to going back to sleep. A command without a response leaves nothing
      behind in the hardware that the server would hear of. */
  function DeliverStep(s: State): Outcome
    requires Shaped(s)
  {
    match s.server
    case Announced(id) => if s.srvLock then Blocked else Ok(s.(server := Delivering(id), srvLock := true))
    case Delivering(id) =>
      var s1 := s.(server := Delivered(id), delivered := s.delivered + [s.cmd]);
      Ok(if s.cmd.xd then s1.(hardware := s.hardware[s.cmd.target := Owed(s.hardware, s.cmd.target) + [s.cmd]]) else s1)
    case Delivered(id) =>
      var s1 := s.(server := Queued(id));
      var k := CommandKey(s.cmd.target);
      Ok(if s.cmd.xd then
           s1.(inFlight := s.inFlight[k := QueueOf(s.inFlight, k) + [id]],
               slots := Put(s.slots, id, Flying(s.cmd, Sender)))
         else s1)
    case Queued(id) => if s.recvLock then Ok(s.(server := Finishing, recvLock := false)) else Fault
    case Finishing => if s.srvLock then Ok(s.(server := Asleep, srvLock := false)) else Fault
    case _ => Blocked
  }

  predicate Allocating(pc: ServerPc) {
    pc.Asleep? || pc.Awake? || pc.Choosing? || pc.Chosen? || pc.Lowered? || pc.Allocated?
  }

  function ServerStep(s: State): Outcome
    requires Shaped(s)
  {
    if Allocating(s.server) then AllocateStep(s) else DeliverStep(s)
  }

  // ---------------------------------------------------------------- responses

  /** A core answers the oldest command it has not answered yet. */
  function AnswerStep(s: State, t: Target, data: int): Outcome {
    var owed := Owed(s.hardware, t);
    if s.register != Quiet || owed == [] then Blocked
    else
      Ok(s.(hardware := s.hardware[t := owed[1..]], register := Heard(owed[0], Resp(ResponseKey(t), data)),
            answers := s.answers[owed[0] := data]))
  }

  function RegisterStep(s: State): Outcome
    requires Shaped(s)
  {
    match s.register
    case Quiet => Blocked
    case Heard(cmd, r) => if s.srvLock then Blocked else Ok(s.(register := Holding(cmd, r), srvLock := true))
    case Holding(cmd, r) =>
      var q := QueueOf(s.inFlight, r.key);
      if q != [] then Ok(s.(register := Front(cmd, r, q[0]))) else Fault
    case Front(cmd, r, id) =>
      if InRange(id) then Ok(s.(register := Stored(cmd, r, id), responses := s.responses[id := r])) else Fault
    case Stored(cmd, r, id) =>
      if InRange(id) && s.wait[id] then
        Ok(s.(register := Woken(cmd, r, id), wait := s.wait[id := false], slots := Ring(s.slots, id)))
      else Fault
    case Woken(cmd, r, id) =>
      var q := QueueOf(s.inFlight, r.key);
      if q != [] then Ok(s.(register := Popped, inFlight := s.inFlight[r.key := q[1..]])) else Fault
    case Popped => if s.srvLock then Ok(s.(register := Quiet, srvLock := false)) else Fault
  }

  function Next(s: State, a: Action): Outcome
    requires Shaped(s)
  {
    match a
    case Send(c, target, xd) => SendStep(s, c, target, xd)
    case Get(c, cmd) => GetStep(s, c, cmd)
    case GiveUp(c) => GiveUpStep(s, c)
    case Client(c) => ClientStep(s, c)
    case Server => ServerStep(s)
    case Answer(t, data) => AnswerStep(s, t, data)
    case Register => RegisterStep(s)
  }
}
