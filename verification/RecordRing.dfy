/** The shared record ring (PostRecord and the loop of MasterWorkerThread): many writers take 32-bit
    tickets and store stamped records, one reader follows with a cursor. */
module RecordRing {
  import opened Counting
  import Runs

  const LENGTH := 0x1_0000   // SHARED_RECORD_INFO_BUFFER_LENGTH
  const WORD := 0x1_0000_0000 // a DWORD wraps here
  const HALF := 0x8000_0000

  /** A stored record; which ticket it was posted under and how many had been taken when it was
      stored are auxiliary. */
  datatype Record = Record(recordIndex: nat, ticket: nat, when: nat)

  datatype Reader =
    | Load // before loading the write index
    | Copy // no catch-up was needed; before copying the slot

  /** A record handed on, with the cursor it was found at. */
  datatype Delivery = Delivery(cursor: nat, ticket: nat)

  /** `index` and `writeIndex` are the DWORDs of the program. The unbounded counts `cursor` and `taken`
      are auxiliary, as is `log`. `delay` bounds how late a post may be, and `lag` how far the reader may
      fall behind. */
  datatype State = State(
    delay: nat, lag: nat,
    writeIndex: nat, taken: nat, pending: set<nat>, slots: seq<Option<Record>>,
    reader: Reader, index: nat, cursor: nat, log: seq<Delivery>)

  datatype Action = Take | Store(ticket: nat) | Read

  /** Posting starts anywhere; no slot matches the cursor. */
  ghost predicate Init(s: State) {
    && s.delay > 0 && s.lag > 0 && s.writeIndex == s.taken % WORD && s.pending == {} && s.slots == seq(LENGTH, _ => None)
    && s.reader == Load && s.index == s.writeIndex && s.cursor == s.taken && s.log == []
  }

  /** A post is stored before `delay` tickets are taken, its own the first of them, and the reader
      never falls more than `lag` tickets behind. */
  predicate Timely(s: State) {
    (forall u | u in s.pending :: s.taken + 1 <= u + s.delay) && s.taken + 1 <= s.cursor + s.lag
  }

  /** The reader never falls behind by more than the ring holds, or posts are less than 2^31 tickets
      late and the reader never falls more than 2^32 tickets behind. */
  predicate Sound(delay: nat, lag: nat) {
    lag <= LENGTH || (delay < HALF && lag <= WORD)
  }

  predicate Enabled(s: State, a: Action) {
    match a
    case Take => Timely(s)
    case Store(u) => u in s.pending && |s.slots| == LENGTH
    case Read => |s.slots| == LENGTH
  }

  /** Unsigned 32-bit subtraction. */
  function Minus(a: nat, b: nat): nat {
    (a - b) % WORD
  }

  function Step(s: State, a: Action): State
    requires Enabled(s, a)
  {
    match a
    case Take => s.(writeIndex := (s.writeIndex + 1) % WORD, taken := s.taken + 1, pending := s.pending + {s.taken})
    case Store(u) =>
      s.(slots := s.slots[u % WORD % LENGTH := Some(Record(u % WORD, u, s.taken))], pending := s.pending - {u})
    case Read => ReadStep(s)
  }

  function ReadStep(s: State): State
    requires |s.slots| == LENGTH
  {
    match s.reader
    case Load =>
      if Minus(s.writeIndex, s.index) > LENGTH then
        s.(index := Minus(s.writeIndex, LENGTH / 2), cursor := if s.taken >= LENGTH / 2 then s.taken - LENGTH / 2 else 0)
      else s.(reader := Copy)
    case Copy =>
      var copy := s.slots[s.index % LENGTH];
      if copy.Some? && copy.value.recordIndex == s.index then
        s.(reader := Load, index := (s.index + 1) % WORD, cursor := s.cursor + 1,
           log := s.log + [Delivery(s.cursor, copy.value.ticket)])
      else s.(reader := Load)
  }

  ghost predicate Next(s: State, s': State) {
    exists a :: Enabled(s, a) && s' == Step(s, a)
  }

  // ---------------------------------------------------------------- the invariant

  /** The 32-bit words are the counts modulo 2^32, and the reader is between one lap behind and level. */
  ghost predicate CountsOk(s: State) {
    && s.writeIndex == s.taken % WORD && s.index == s.cursor % WORD
    && s.cursor <= s.taken <= s.cursor + WORD && |s.slots| == LENGTH && s.delay > 0
    && forall u | u in s.pending :: u < s.taken <= u + s.delay
  }

  /** A record is in the slot of its ticket; later tickets of the slot are still on their way. */
  ghost predicate SlotOk(s: State, r: Record, j: nat) {
    && r.recordIndex == r.ticket % WORD && r.ticket % LENGTH == j && r.ticket < s.taken
    && r.when <= s.taken && r.ticket < r.when <= r.ticket + s.delay
    && forall v | r.when <= v < s.taken && v % LENGTH == j :: v in s.pending
  }

  ghost predicate SlotsOk(s: State) {
    forall j | 0 <= j < |s.slots| && s.slots[j].Some? :: SlotOk(s, s.slots[j].value, j)
  }

  /** The cursors in the log increase and are behind the present one. */
  ghost predicate LogOk(s: State) {
    && (forall i | 0 <= i < |s.log| :: s.log[i].cursor < s.cursor)
    && forall i, j | 0 <= i < j < |s.log| :: s.log[i].cursor < s.log[j].cursor
  }

  /** With a reader that keeps up, no ticket behind the cursor is on its way, and what is in the ring
      is less than a round behind. */
  ghost predicate Near(s: State) {
    && s.taken <= s.cursor + LENGTH && (forall u | u in s.pending :: s.cursor <= u)
    && forall j | 0 <= j < |s.slots| && s.slots[j].Some? ::
         s.cursor <= s.slots[j].value.ticket + LENGTH && s.slots[j].value.ticket !in s.pending
  }

  ghost predicate Inv(s: State) {
    CountsOk(s) && SlotsOk(s) && LogOk(s) && s.lag <= WORD && (s.lag <= LENGTH ==> Near(s))
  }

  /** Every record was found at the cursor it was stamped with. */
  ghost predicate Faithful(s: State) {
    forall i | 0 <= i < |s.log| :: s.log[i].ticket == s.log[i].cursor
  }

  lemma TakeInv(s: State)
    requires CountsOk(s) && SlotsOk(s) && s.lag <= WORD && Timely(s)
    ensures CountsOk(Step(s, Take)) && SlotsOk(Step(s, Take))
  {
    var t := Step(s, Take);
    forall j | 0 <= j < |t.slots| && t.slots[j].Some? ensures SlotOk(t, t.slots[j].value, j) {
      assert SlotOk(s, s.slots[j].value, j);
    }
  }

  lemma StoreInv(s: State, u: nat)
    requires CountsOk(s) && SlotsOk(s) && u in s.pending
    ensures CountsOk(Step(s, Store(u))) && SlotsOk(Step(s, Store(u)))
  {
    var t := Step(s, Store(u));
    var w := u % LENGTH;
    WordSlot(u);
    hide Minus;
    forall j | 0 <= j < |t.slots| && t.slots[j].Some? ensures SlotOk(t, t.slots[j].value, j) {
      if j != w {
        assert SlotOk(s, s.slots[j].value, j);
      }
    }
  }

  lemma MinusIsLag(taken: nat, cursor: nat)
    requires cursor <= taken <= cursor + WORD
    ensures Minus(taken % WORD, cursor % WORD) == if taken == cursor + WORD then 0 else taken - cursor
  {
  }

  lemma WordNext(n: nat)
    ensures (n % WORD + 1) % WORD == (n + 1) % WORD
  {
  }

  lemma WordSlot(n: nat)
    ensures n % WORD % LENGTH == n % LENGTH
  {
  }

  lemma Apart(v: nat, u: nat)
    requires v < u < v + LENGTH
    ensures v % LENGTH != u % LENGTH
  {
  }

  /** Equal words are equal numbers or a lap apart. */
  lemma WordTells(t: nat, c: nat)
    requires t % WORD == c % WORD && t < c + WORD
    ensures t == c || t + WORD <= c
  {
  }

  lemma WordBack(n: nat, d: nat)
    requires d <= n
    ensures Minus(n % WORD, d) == (n - d) % WORD
  {
  }

  /** A stamp equal to the cursor's is the cursor's. */
  lemma StampTells(s: State)
    requires Inv(s) && Sound(s.delay, s.lag) && s.slots[s.index % LENGTH].Some?
    requires s.slots[s.index % LENGTH].value.recordIndex == s.index
    ensures s.slots[s.index % LENGTH].value.ticket == s.cursor < s.taken
  {
    hide Near, Sound;
    var j := s.index % LENGTH;
    var r := s.slots[j].value;
    assert SlotOk(s, r, j);
    WordTells(r.ticket, s.cursor);
    NotStale(s, r, j);
  }

  lemma HalfLap(n: nat)
    ensures (n + HALF) % LENGTH == n % LENGTH
  {
  }

  /** A record in the ring is not 2^32 tickets behind the cursor. */
  lemma NotStale(s: State, r: Record, j: nat)
    requires Inv(s) && Sound(s.delay, s.lag) && j < LENGTH && s.slots[j] == Some(r)
    ensures s.cursor < r.ticket + WORD
  {
    assert SlotOk(s, r, j);
    // half a lap after a stale ticket, its slot was due again
    var v := r.ticket + HALF;
    HalfLap(r.ticket);
    assert s.lag > LENGTH ==> v in s.pending || v >= s.taken;
  }

  /** What a read does, told by tickets instead of words: it jumps forward to half a ring behind the writers exactly if
      it is behind by more than the ring and not a whole round of the counter, and it hands on a record and moves on by
      one exactly if the slot holds the record of the cursor's ticket. */
  lemma ReadMoves(s: State)
    requires Inv(s) && Sound(s.delay, s.lag)
    ensures s.reader.Load? ==>
              ReadStep(s)
              == if s.cursor + LENGTH < s.taken < s.cursor + WORD then
                   s.(index := (s.taken - LENGTH / 2) % WORD, cursor := s.taken - LENGTH / 2)
                 else s.(reader := Copy)
    ensures s.reader.Copy? ==>
              ReadStep(s)
              == if s.slots[s.cursor % LENGTH].Some? && s.slots[s.cursor % LENGTH].value.ticket == s.cursor then
                   s.(reader := Load, index := (s.cursor + 1) % WORD, cursor := s.cursor + 1,
                      log := s.log + [Delivery(s.cursor, s.cursor)])
                 else s.(reader := Load)
    ensures ReadStep(s).index == ReadStep(s).cursor % WORD && ReadStep(s).cursor <= s.taken
  {
    hide SlotsOk, LogOk, Near, Sound, Minus;
    match s.reader
    case Load =>
      MinusIsLag(s.taken, s.cursor);
      if s.taken >= LENGTH / 2 {
        WordBack(s.taken, LENGTH / 2);
      }
    case Copy => CopyTells(s);
  }

  /** The slot is that of the cursor's ticket, and its stamp tells whether it holds that ticket's record. */
  lemma CopyTells(s: State)
    requires Inv(s) && Sound(s.delay, s.lag)
    ensures s.index % LENGTH == s.cursor % LENGTH && (s.index + 1) % WORD == (s.cursor + 1) % WORD
    ensures var c := s.slots[s.index % LENGTH];
            c.Some? ==> (c.value.recordIndex == s.index <==> c.value.ticket == s.cursor)
                        && (c.value.ticket == s.cursor ==> s.cursor < s.taken)
  {
    hide LogOk, Near, Sound;
    WordSlot(s.cursor);
    WordNext(s.cursor);
    if s.slots[s.index % LENGTH].Some? {
      assert SlotOk(s, s.slots[s.index % LENGTH].value, s.index % LENGTH);
      if s.slots[s.index % LENGTH].value.recordIndex == s.index {
        StampTells(s);
      }
    }
  }

  lemma ReadInv(s: State)
    requires Inv(s) && Faithful(s) && Sound(s.delay, s.lag)
    ensures Inv(ReadStep(s)) && Faithful(ReadStep(s))
  {
    ReadMoves(s);
    var t := ReadStep(s);
    forall j | 0 <= j < |t.slots| && t.slots[j].Some? ensures SlotOk(t, t.slots[j].value, j) {
      assert SlotOk(s, s.slots[j].value, j);
    }
    if s.lag <= LENGTH {
      ReadNear(s);
    }
  }

  /** Only the slot the cursor passes can have been a round behind. */
  lemma PassedSlot(ticket: nat, cursor: nat)
    requires cursor <= ticket + LENGTH && ticket % LENGTH != cursor % LENGTH
    ensures cursor + 1 <= ticket + LENGTH
  {
  }

  lemma ReadNear(s: State)
    requires Inv(s) && Sound(s.delay, s.lag) && Near(s)
    ensures Near(ReadStep(s))
  {
    hide Sound;
    ReadMoves(s);
    var t := ReadStep(s);
    WordSlot(s.cursor);
    forall j | 0 <= j < |s.slots| && s.slots[j].Some? ensures t.cursor <= s.slots[j].value.ticket + LENGTH {
      hide Minus;
      assert SlotOk(s, s.slots[j].value, j);
      if j != s.index % LENGTH {
        PassedSlot(s.slots[j].value.ticket, s.cursor);
      }
    }
  }

  lemma TakeNear(s: State)
    requires Inv(s) && Timely(s) && s.lag <= LENGTH
    ensures Near(Step(s, Take))
  {
    forall j | 0 <= j < |s.slots| && s.slots[j].Some? ensures s.slots[j].value.ticket < s.taken {
      assert SlotOk(s, s.slots[j].value, j);
    }
  }

  lemma StepInv(s: State, s': State)
    requires Sound(s.delay, s.lag) && Inv(s) && Faithful(s) && Next(s, s')
    ensures s'.delay == s.delay && s'.lag == s.lag && Inv(s') && Faithful(s')
  {
    hide Near;
    var a :| Enabled(s, a) && s' == Step(s, a);
    match a
    case Take =>
      TakeInv(s);
      if s.lag <= LENGTH {
        TakeNear(s);
      }
    case Store(u) =>
      StoreInv(s, u);
      if s.lag <= LENGTH {
        StoreNear(s, u);
      }
    case Read => ReadInv(s);
  }

  lemma StoreNear(s: State, u: nat)
    requires Near(s) && u in s.pending && |s.slots| == LENGTH
    ensures Near(Step(s, Store(u)))
  {
  }

  // ---------------------------------------------------------------- theorems over every run

  ghost predicate Safe(s: State) {
    Sound(s.delay, s.lag) ==> Inv(s) && Faithful(s)
  }

  lemma RunSafe(run: seq<State>, k: nat)
    requires Runs.IsRun(Init, Next, run) && k < |run|
    ensures Safe(run[k])
  {
    forall s, s' | Safe(s) && Next(s, s') ensures Safe(s') {
      if Sound(s.delay, s.lag) {
        StepInv(s, s');
      } else {
        SameBounds(s, s');
      }
    }
    Runs.Invariant(Init, Next, Safe, run);
  }

  lemma SameBounds(s: State, s': State)
    requires Next(s, s')
    ensures s'.delay == s.delay && s'.lag == s.lag
  {
  }

  /** As long as the reader keeps up, or posts are less than 2^31 tickets late, every record handed on is the one of the
      cursor's ticket, each ticket is handed on at most once, and in increasing order. */
  lemma Delivers(run: seq<State>, k: nat)
    requires Runs.IsRun(Init, Next, run) && k < |run| && Sound(run[k].delay, run[k].lag)
    ensures Faithful(run[k])
    ensures var log := run[k].log; forall i, j | 0 <= i < j < |log| :: log[i].ticket < log[j].ticket
  {
    RunSafe(run, k);
  }

  // ---------------------------------------------------------------- the bound is exact

  ghost predicate Leads(s: State, t: State) {
    Runs.Leads(Next, s, t)
  }

  lemma Walk(s: State, t: State, a: Action)
    requires Leads(s, t) && Enabled(t, a)
    ensures Leads(s, Step(t, a))
  {
    Runs.Extend(Next, s, t, Step(t, a));
  }

  ghost function Range(a: nat, b: nat): (r: set<nat>)
    ensures forall x :: x in r <==> a <= x < b
  {
    if a >= b then {} else Range(a, b - 1) + {b - 1}
  }

  /** Storing the posts from a to b - 1 in this order. */
  lemma {:induction false} StoreMany(s0: State, s: State, a: nat, b: nat) returns (t: State)
    requires Leads(s0, s) && |s.slots| == LENGTH && a <= b && Range(a, b) <= s.pending
    ensures Leads(s0, t) && |t.slots| == LENGTH && t == s.(slots := t.slots, pending := s.pending - Range(a, b))
    ensures b <= a + LENGTH ==> forall v | a <= v < b :: t.slots[v % LENGTH] == Some(Record(v % WORD, v, s.taken))
    ensures forall j | 0 <= j < LENGTH && (forall v | a <= v < b :: v % LENGTH != j) :: t.slots[j] == s.slots[j]
    decreases b
  {
    if a == b {
      t := s;
    } else {
      var u := b - 1;
      assert u in Range(a, b);
      var m := StoreMany(s0, s, a, u);
      WordSlot(u);
      hide Minus;
      Walk(s0, m, Store(u));
      t := Step(m, Store(u));
      if b <= a + LENGTH {
        forall v | a <= v < u ensures v % LENGTH != u % LENGTH {
          Apart(v, u);
        }
      }
    }
  }

  lemma ReadOne(s0: State, s: State) returns (t: State)
    requires Leads(s0, s) && |s.slots| == LENGTH && s.reader == Load && s.cursor < s.taken <= s.cursor + LENGTH
    requires s.writeIndex == s.taken % WORD && s.index == s.cursor % WORD
    requires var o := s.slots[s.cursor % LENGTH]; o.Some? && o.value.recordIndex == s.cursor % WORD
    ensures Leads(s0, t) && t == s.(index := (s.cursor + 1) % WORD, cursor := s.cursor + 1, log := t.log)
  {
    hide Minus;
    MinusIsLag(s.taken, s.cursor);
    WordNext(s.cursor);
    WordSlot(s.cursor);
    Walk(s0, s, Read);
    Walk(s0, Step(s, Read), Read);
    t := Step(Step(s, Read), Read);
  }

  /** Reading n records that are there. */
  lemma {:induction false} ReadMany(s0: State, s: State, n: nat) returns (t: State)
    requires Leads(s0, s) && |s.slots| == LENGTH && s.reader == Load && s.cursor + n <= s.taken <= s.cursor + LENGTH
    requires s.writeIndex == s.taken % WORD && s.index == s.cursor % WORD
    requires forall v | s.cursor <= v < s.cursor + n ::
               s.slots[v % LENGTH].Some? && s.slots[v % LENGTH].value.recordIndex == v % WORD
    ensures Leads(s0, t)
    ensures t == s.(index := (s.cursor + n) % WORD, cursor := s.cursor + n, log := t.log)
  {
    if n == 0 {
      t := s;
    } else {
      var m := ReadMany(s0, s, n - 1);
      assert s.slots[m.cursor % LENGTH].Some?;
      t := ReadOne(s0, m);
    }
  }

  /** The start of a run with given bounds. */
  function Fresh(d: nat, lag: nat): State {
    State(d, lag, 0, 0, {}, seq(LENGTH, _ => None), Load, 0, 0, [])
  }

  // ---- a reader more than 2^32 tickets behind

  /** n tickets are taken and stored at once while the reader rests. */
  lemma {:induction false} PostMany(d: nat, lag: nat, n: nat) returns (t: State)
    requires d > 0 && n <= lag
    ensures Leads(Fresh(d, lag), t) && |t.slots| == LENGTH
    ensures t == Fresh(d, lag).(writeIndex := n % WORD, taken := n, slots := t.slots)
    ensures n > 0 ==> t.slots[(n - 1) % LENGTH] == Some(Record((n - 1) % WORD, n - 1, n))
  {
    var s0 := Fresh(d, lag);
    if n == 0 {
      Runs.Stay(Next, s0);
      t := s0;
    } else {
      var m := PostMany(d, lag, n - 1);
      WordNext(n - 1);
      WordSlot(n - 1);
      hide Minus;
      Walk(s0, m, Take);
      var u := Step(m, Take);
      Walk(s0, u, Store(n - 1));
      t := Step(u, Store(n - 1));
      assert t.pending == {};
    }
  }

  /** Ticket 2^32 is found where ticket 0 is expected. */
  lemma LappedReader(d: nat, lag: nat) returns (t: State)
    requires d > 0 && lag > WORD
    ensures Leads(Fresh(d, lag), t) && !Faithful(t)
  {
    var s0 := Fresh(d, lag);
    var s := PostMany(d, lag, WORD + 1);
    Walk(s0, s, Read);
    Walk(s0, Step(s, Read), Read);
    t := Step(Step(s, Read), Read);
    assert t.log[|t.log| - 1] == Delivery(0, WORD);
  }

  // ---- a post 2^31 tickets late

  /** How far a reader is behind that starts level, never reads a record and catches up as soon as the
      program does. */
  function Behind(n: nat): nat {
    if n == 0 then 0 else if Behind(n - 1) == LENGTH then LENGTH / 2 else Behind(n - 1) + 1
  }

  lemma {:induction false} BehindIs(n: nat)
    ensures Behind(n) == if n <= LENGTH then n else LENGTH / 2 + (n - LENGTH - 1) % 0x8001
  {
    if n > 0 {
      BehindIs(n - 1);
      if n > LENGTH + 1 {
        Around(n - LENGTH - 2);
      }
    }
  }

  lemma Around(k: nat)
    ensures (k + 1) % 0x8001 == if k % 0x8001 == 0x8000 then 0 else k % 0x8001 + 1
  {
  }

  /** n tickets are taken; the reader catches up where it has to. */
  lemma {:induction false} TakeFar(s0: State, s: State, n: nat) returns (t: State)
    requires Leads(s0, s) && |s.slots| == LENGTH && s.reader == Load && s.lag > LENGTH && n <= s.delay
    requires s.writeIndex == s.taken % WORD && s.index == s.cursor % WORD && s.cursor + Behind(s.taken) == s.taken
    requires forall u | u in s.pending :: s.taken + n <= u + s.delay
    ensures Leads(s0, t) && t.cursor + Behind(t.taken) == t.taken
    ensures t == s.(writeIndex := (s.taken + n) % WORD, taken := s.taken + n,
                    pending := s.pending + Range(s.taken, s.taken + n),
                    index := t.cursor % WORD, cursor := t.cursor)
  {
    if n == 0 {
      t := s;
      assert Range(s.taken, s.taken) == {};
    } else {
      var m := TakeFar(s0, s, n - 1);
      BehindIs(m.taken);
      WordNext(m.taken);
      Walk(s0, m, Take);
      t := Step(m, Take);
      assert Range(s.taken, s.taken + n) == Range(s.taken, s.taken + n - 1) + {s.taken + n - 1};
      if Behind(m.taken) == LENGTH {
        t := Catchup(s0, t);
      }
    }
  }

  lemma Catchup(s0: State, s: State) returns (t: State)
    requires Leads(s0, s) && |s.slots| == LENGTH && s.reader == Load && s.cursor + LENGTH < s.taken < s.cursor + WORD
    requires s.writeIndex == s.taken % WORD && s.index == s.cursor % WORD
    ensures Leads(s0, t)
    ensures t == s.(index := (s.taken - LENGTH / 2) % WORD, cursor := s.taken - LENGTH / 2)
  {
    hide Minus;
    MinusIsLag(s.taken, s.cursor);
    WordBack(s.taken, LENGTH / 2);
    Walk(s0, s, Read);
    t := Step(s, Read);
  }

  /** 2^31 tickets are taken and stored, ticket 0 last. */
  lemma StaleStored(d: nat, lag: nat) returns (t: State)
    requires d >= HALF && lag > LENGTH
    ensures Leads(Fresh(d, lag), t) && |t.slots| == LENGTH && t.slots[0] == Some(Record(0, 0, HALF))
    ensures t.cursor + Behind(HALF) == HALF
    ensures t == State(d, lag, HALF, HALF, {}, t.slots, Load, t.cursor % WORD, t.cursor, [])
  {
    hide Minus, ReadStep, Behind, Range;
    var s0 := Fresh(d, lag);
    Runs.Stay(Next, s0);
    BehindIs(0);
    var s := TakeFar(s0, s0, HALF);
    s := StoreMany(s0, s, 1, HALF);
    assert s.pending == {0};
    Walk(s0, s, Store(0));
    t := Step(s, Store(0));
  }

  const LAST: nat := 0x8005 // how far the reader is behind then

  /** 2^31 more tickets are taken and the last of them stored, none of slot 0. */
  lemma StaleDue(d: nat, lag: nat, s: State) returns (t: State)
    requires d >= HALF && lag > LENGTH && Leads(Fresh(d, lag), s)
    requires |s.slots| == LENGTH && s.slots[0] == Some(Record(0, 0, HALF))
    requires s.cursor + Behind(HALF) == HALF
    requires s == State(d, lag, HALF, HALF, {}, s.slots, Load, s.cursor % WORD, s.cursor, [])
    ensures Leads(Fresh(d, lag), t) && |t.slots| == LENGTH && t.slots[0] == Some(Record(0, 0, HALF))
    ensures t == State(d, lag, 0, WORD, t.pending, t.slots, Load, (WORD - LAST) % WORD, WORD - LAST, [])
    ensures forall v | WORD - LAST <= v < WORD :: t.slots[v % LENGTH] == Some(Record(v % WORD, v, WORD))
  {
    hide Minus, ReadStep, Behind, Range;
    var s1 := TakeFar(Fresh(d, lag), s, HALF);
    BehindIs(WORD);
    t := StoreMany(Fresh(d, lag), s1, WORD - LAST, WORD);
  }

  /** Level with the writers, the reader finds stamp 0 where it expects ticket 2^32. */
  lemma StaleRead(s0: State, s: State) returns (t: State)
    requires Leads(s0, s) && |s.slots| == LENGTH && s.slots[0] == Some(Record(0, 0, HALF))
    requires s.reader == Load && s.cursor == s.taken == WORD && s.index == s.writeIndex == 0
    ensures Leads(s0, t) && !Faithful(t)
  {
    Walk(s0, s, Read);
    Walk(s0, Step(s, Read), Read);
    t := Step(Step(s, Read), Read);
    assert t.log[|t.log| - 1] == Delivery(WORD, 0);
  }

  /** Ticket 0 comes in 2^31 tickets late, the later tickets of its slot are as late: the slot then
      still carries stamp 0 when the cursor has come around to it. */
  lemma StaleRecord(d: nat, lag: nat) returns (t: State)
    requires d >= HALF && lag > LENGTH
    ensures Leads(Fresh(d, lag), t) && !Faithful(t)
  {
    hide Minus;
    var s := StaleStored(d, lag);
    s := StaleDue(d, lag, s);
    s := ReadMany(Fresh(d, lag), s, LAST);
    t := StaleRead(Fresh(d, lag), s);
  }

  /** Records are told apart by their stamps, in every run, exactly if the reader never falls behind by
      more than the ring holds, or posts are less than 2^31 tickets late and the reader never falls
      more than 2^32 tickets behind. */
  lemma BoundIsExact(d: nat, lag: nat)
    requires d > 0 && lag > 0
    ensures (forall run: seq<State>, k: nat | && Runs.IsRun(Init, Next, run) && k < |run|
                                              && run[k].delay == d && run[k].lag == lag :: Faithful(run[k]))
            <==> lag <= LENGTH || (d < HALF && lag <= WORD)
  {
    if Sound(d, lag) {
      forall run: seq<State>, k: nat | Runs.IsRun(Init, Next, run) && k < |run| && run[k].delay == d && run[k].lag == lag
        ensures Faithful(run[k])
      {
        Delivers(run, k);
      }
    } else {
      var t;
      if lag > WORD {
        t := LappedReader(d, lag);
      } else {
        t := StaleRecord(d, lag);
      }
      var run := Runs.RunTo(Init, Next, Fresh(d, lag), t);
      SameAlong(run, |run| - 1);
      assert !Faithful(run[|run| - 1]);
    }
  }

  lemma {:induction false} SameAlong(run: seq<State>, k: nat)
    requires k < |run| && forall i: nat | i + 1 < |run| :: Next(run[i], run[i + 1])
    ensures run[k].delay == run[0].delay && run[k].lag == run[0].lag
  {
    if k > 0 {
      SameAlong(run, k - 1);
      SameBounds(run[k - 1], run[k - 1 + 1]);
    }
  }
}
