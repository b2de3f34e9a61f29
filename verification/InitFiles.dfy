/**
  The files createList writes and crio-lxc-init reads back: lists of NUL-terminated strings.

  The runtime's side is Go, the reader is C with one fixed buffer that is used again for every
  string. `Args` and `Variables` say what the reader makes of any file; the theorems relate that to
  what was written.
 */
module InitFiles {
  import opened Options

  type Byte = b: int | 0 <= b < 256
  type Bytes = seq<Byte>

  const NUL: Byte := 0
  const EQUALS: Byte := 61
  const EOF: int := -1

  // A char is signed: the byte 0xFF reads as EOF.
  function Char(b: Byte): int {
    if b < 128 then b else b - 256
  }

  // ---------------------------------------------------------------- writing

  function Print(entries: seq<Bytes>): Bytes {
    if entries == [] then [] else entries[0] + [NUL] + Print(entries[1..])
  }

  lemma {:induction false} PrintConcat(a: seq<Bytes>, b: seq<Bytes>)
    ensures Print(a + b) == Print(a) + Print(b)
  {
    if a == [] {
      assert a + b == b;
    } else {
      assert (a + b)[1..] == a[1..] + b;
      PrintConcat(a[1..], b);
    }
  }

  lemma PrintOne(t: Bytes)
    ensures Print([t]) == t + [NUL]
  {
    var none: seq<Bytes> := [t][1..];
    assert none == [] && Print(none) == [];
  }

  method CreateList(entries: seq<Bytes>) returns (file: Bytes)
    ensures file == Print(entries)
  {
    file := [];
    var i := 0;
    while i < |entries|
      invariant i <= |entries| && file == Print(entries[..i])
    {
      assert entries[..i + 1] == entries[..i] + [entries[i]];
      PrintConcat(entries[..i], [entries[i]]);
      PrintOne(entries[i]);
      file := file + entries[i];
      file := file + [NUL];
      i := i + 1;
    }
    assert entries[..i] == entries;
  }

  // ---------------------------------------------------------------- reading one string

  datatype Stop = AtNul | AtEof | NoRoom

  // The bytes up to the next NUL, the end or 0xFF, or until the buffer is full.
  function Read(file: Bytes, room: nat): (r: (Bytes, Stop))
    ensures |r.0| <= |file| && |r.0| <= room && (r.1.AtNul? ==> |r.0| < |file| && |r.0| < room)
  {
    if room == 0 then ([], NoRoom)
    else if file == [] || Char(file[0]) == EOF then ([], AtEof)
    else if file[0] == NUL then ([], AtNul)
    else var (t, stop) := Read(file[1..], room - 1); ([file[0]] + t, stop)
  }

  function Consumed(r: (Bytes, Stop)): nat {
    |r.0| + if r.1.AtNul? then 1 else 0
  }

  // ---------------------------------------------------------------- arguments

  // The arguments, and whether the list ends with a null pointer; None is an error. At most `slots`
  // arguments are read, and only a list that ends before is closed by a null pointer.
  function Args(file: Bytes, buflen: nat, slots: nat): Option<(seq<Bytes>, bool)>
    decreases slots
  {
    if slots == 0 then Some(([], false)) else
    var r := Read(file, buflen);
    if r.1.AtEof? then (if r.0 == [] then Some(([], true)) else None) else
    match Args(file[Consumed(r)..], buflen, slots - 1)
    case None => None
    case Some((more, ended)) => Some(([r.0] + more, ended))
  }

  // How many arguments there is room for.
  function Room(maxargs: nat): nat {
    if maxargs == 0 then 0 else maxargs - 1
  }

  // What load_cmdline returns: an empty list is an error too.
  function Cmdline(file: Bytes, buflen: nat, maxargs: nat): Option<(seq<Bytes>, bool)> {
    var r := Args(file, buflen, Room(maxargs));
    if r.Some? && r.value.0 == [] then None else r
  }

  datatype Slot = Unset | Null | Arg(value: Bytes)

  function Slots(args: seq<Bytes>): seq<Slot> {
    seq(|args|, i requires 0 <= i < |args| => Arg(args[i]))
  }

  // How many slots of the array are written, which is what the array must have: the number maxargs does
  // not bound them by the array's size.
  function Written(file: Bytes, buflen: nat, slots: nat): nat
    decreases slots
  {
    if slots == 0 then 0 else
    var r := Read(file, buflen);
    if r.1.AtEof? then (if r.0 == [] then 1 else 0) else 1 + Written(file[Consumed(r)..], buflen, slots - 1)
  }

  // The program has 256 slots, and passes the size of the array in bytes as maxargs.
  const ARG_SLOTS: nat := 256
  const POINTER_BYTES: nat := 8

  // The array of arguments afterwards: beyond them and their null pointer it is as it was.
  function Fill(was: seq<Slot>, args: seq<Bytes>, ended: bool): seq<Slot>
    requires |args| + (if ended then 1 else 0) <= |was|
  {
    Slots(args) + if ended then [Null] + was[|args| + 1..] else was[|args|..]
  }

  lemma FillEnd(was: seq<Slot>, seen: seq<Bytes>)
    requires |seen| < |was|
    ensures (Slots(seen) + was[|seen|..])[|seen| := Null] == Fill(was, seen, true)
  {
  }

  lemma FillOne(was: seq<Slot>, seen: seq<Bytes>, t: Bytes)
    requires |seen| < |was|
    ensures (Slots(seen) + was[|seen|..])[|seen| := Arg(t)] == Slots(seen + [t]) + was[|seen| + 1..]
  {
  }

  // ---------------------------------------------------------------- environment

  type Env = map<Bytes, Bytes>

  function IndexOf(t: Bytes, b: Byte): (k: nat)
    ensures k <= |t| && (k < |t| ==> t[k] == b) && forall j | 0 <= j < k :: t[j] != b
  {
    if t == [] || t[0] == b then 0 else 1 + IndexOf(t[1..], b)
  }

  // A variable has a key that is not empty, and "=".
  predicate IsVariable(t: Bytes) {
    0 < IndexOf(t, EQUALS) < |t|
  }

  function Set(env: Env, t: Bytes): Env
    requires IsVariable(t)
  {
    env[t[..IndexOf(t, EQUALS)] := t[IndexOf(t, EQUALS) + 1..]]
  }

  // A string as C sees it: one that fills the buffer goes on with what lies behind, up to NUL.
  function Seen(r: (Bytes, Stop), behind: Bytes): Bytes {
    r.0 + if r.1.NoRoom? then behind else []
  }

  // The environment after reading the file; None is an error.
  function Variables(file: Bytes, buflen: nat, behind: Bytes, env: Env): Option<Env>
    requires buflen > 0
    decreases |file|
  {
    var r := Read(file, buflen);
    if r.1.AtEof? then (if r.0 == [] then Some(env) else None)
    else if !IsVariable(r.0) then None
    else
      IndexStays(r.0, if r.1.NoRoom? then behind else [], EQUALS);
      Variables(file[Consumed(r)..], buflen, behind, Set(env, Seen(r, behind)))
  }

  lemma {:induction false} IndexStays(t: Bytes, more: Bytes, b: Byte)
    requires IndexOf(t, b) < |t|
    ensures IndexOf(t + more, b) == IndexOf(t, b)
  {
    if t[0] != b {
      assert (t + more)[1..] == t[1..] + more;
      IndexStays(t[1..], more, b);
    }
  }

  // No variable that is read fills the buffer: its value would have no end there.
  predicate Fits(file: Bytes, buflen: nat)
    requires buflen > 0
    decreases |file|
  {
    var r := Read(file, buflen);
    r.1.AtEof? || !IsVariable(r.0) || (r.1.AtNul? && Fits(file[Consumed(r)..], buflen))
  }

  // ---------------------------------------------------------------- the reader

  // strlen of what the buffer starts with.
  method StringLength(buf: array<Byte>) returns (n: nat)
    requires NUL in buf[..]
    ensures n == IndexOf(buf[..], NUL) && n < buf.Length
  {
    n := 0;
    IndexFound(buf[..], NUL);
    while buf[n] != NUL
      invariant n <= IndexOf(buf[..], NUL) < buf.Length
      decreases buf.Length - n
    {
      n := n + 1;
    }
  }

  lemma {:induction false} IndexFound(t: Bytes, b: Byte)
    requires b in t
    ensures IndexOf(t, b) < |t|
  {
    if t[0] != b { IndexFound(t[1..], b); }
  }

  // In place, the first "=" is now NUL.
  function Cut(t: Bytes, key: bool): Bytes {
    var k := IndexOf(t, EQUALS);
    if key && k < |t| then t[k := NUL] else t
  }

  function ReadAfter(t: Bytes, r: (Bytes, Stop)): (Bytes, Stop) {
    (t + r.0, r.1)
  }

  lemma ReadAfterNothing(r: (Bytes, Stop))
    ensures ReadAfter([], r) == r
  {
    assert [] + r.0 == r.0;
  }

  lemma {:induction false} ReadStopsAtNul(file: Bytes, room: nat)
    ensures NUL !in Read(file, room).0
  {
    if room > 0 && file != [] && Char(file[0]) != EOF && file[0] != NUL { ReadStopsAtNul(file[1..], room - 1); }
  }

  lemma {:induction false} ReadFills(file: Bytes, room: nat)
    ensures var r := Read(file, room); !r.1.AtEof? ==> (r.1.NoRoom? <==> |r.0| == room)
  {
    if room > 0 && file != [] { ReadFills(file[1..], room - 1); }
  }

  // Where the reading stops.
  lemma ReadEnds(file: Bytes, at: nat, room: nat, t: Bytes)
    requires at <= |file|
    ensures room == 0 ==> ReadAfter(t, Read(file[at..], room)) == (t, NoRoom)
    ensures room > 0 && (at == |file| || Char(file[at]) == EOF) ==> ReadAfter(t, Read(file[at..], room)) == (t, AtEof)
    ensures room > 0 && at < |file| && file[at] == NUL ==> ReadAfter(t, Read(file[at..], room)) == (t, AtNul)
  {
    assert t + [] == t;
  }

  lemma ReadMore(file: Bytes, at: nat, room: nat, t: Bytes)
    requires room > 0 && at < |file| && Char(file[at]) != EOF && file[at] != NUL
    ensures ReadAfter(t, Read(file[at..], room)) == ReadAfter(t + [file[at]], Read(file[at + 1..], room - 1))
  {
    assert file[at..][1..] == file[at + 1..];
    var r := Read(file[at + 1..], room - 1).0;
    assert t + ([file[at]] + r) == t + [file[at]] + r;
  }

  lemma CutMore(t: Bytes, b: Byte, key: bool, split: bool)
    requires key <==> split && IndexOf(t, EQUALS) < |t|
    ensures var now := key || (b == EQUALS && split);
            && Cut(t + [b], now) == Cut(t, key) + [if !key && b == EQUALS && split then NUL else b]
            && (now <==> split && IndexOf(t + [b], EQUALS) < |t| + 1)
  {
    IndexOfMore(t, b, EQUALS);
    var k, k' := IndexOf(t, EQUALS), IndexOf(t + [b], EQUALS);
    CutAt(t, b, k, k', key, split);
  }

  lemma CutAt(t: Bytes, b: Byte, k: nat, k': nat, key: bool, split: bool)
    requires k <= |t| && (key <==> split && k < |t|)
    requires k' == if k < |t| then k else if b == EQUALS then |t| else |t| + 1
    ensures var now := key || (b == EQUALS && split);
            (if now && k' < |t| + 1 then (t + [b])[k' := NUL] else t + [b]) ==
            (if key && k < |t| then t[k := NUL] else t) + [if !key && b == EQUALS && split then NUL else b]
  {
  }

  lemma {:induction false} IndexOfMore(t: Bytes, b: Byte, x: Byte)
    ensures IndexOf(t + [b], x) == if IndexOf(t, x) < |t| then IndexOf(t, x) else if b == x then |t| else |t| + 1
  {
    if t != [] && t[0] != x {
      assert (t + [b])[1..] == t[1..] + [b];
      IndexOfMore(t[1..], b, x);
    }
  }

  // The state inside the loop: t was read, and is in the buffer with its first "=" cut.
  ghost predicate Filling(whole: (Bytes, Stop), t: Bytes, file: Bytes, pos: nat, buf: Bytes, split: bool, i: nat,
        next: nat, key: bool) {
    && i == |t| <= |buf| && next == pos + i <= |file|
    && whole == ReadAfter(t, Read(file[next..], |buf| - i))
    && (key <==> split && IndexOf(t, EQUALS) < i)
    && buf[..i] == Cut(t, key)
  }

  // And behind it.
  ghost predicate Holds(r: (Bytes, Stop), pos: nat, buf: Bytes, split: bool, i: nat, c: int, next: nat, key: bool) {
    && i == |r.0| <= |buf| && next == pos + Consumed(r)
    && (r.1.AtEof? <==> c == EOF) && (r.1.AtNul? <==> c == 0)
    && (key <==> split && IndexOf(r.0, EQUALS) < i)
    && (r.1.AtNul? ==> i < |buf| && buf[i] == NUL)
    && buf[..i] == Cut(r.0, key)
  }

  lemma FillingEnds(whole: (Bytes, Stop), t: Bytes, file: Bytes, pos: nat, buf: Bytes, split: bool, i: nat, c: int,
        next: nat, key: bool)
    requires Filling(whole, t, file, pos, buf, split, i, next, key)
    requires if i == |buf| then c != EOF && c != 0
             else if next == |file| then c == EOF
             else c == Char(file[next]) && (c == EOF || (c == 0 && buf[i] == NUL))
    ensures Holds(whole, pos, buf, split, i, c, if c == 0 then next + 1 else next, key)
  {
    ReadEnds(file, next, |buf| - i, t);
  }

  lemma FillingOn(whole: (Bytes, Stop), t: Bytes, file: Bytes, pos: nat, buf: Bytes, split: bool, i: nat, next: nat,
        key: bool)
    requires i < |buf| && next < |file| && Char(file[next]) != EOF && file[next] != NUL && buf[i] == file[next]
    requires Filling(whole, t, file, pos, buf, split, i, next, key)
    ensures var cut := !key && file[next] == EQUALS && split;
            Filling(whole, t + [file[next]], file, pos, if cut then buf[i := NUL] else buf, split,
                    i + 1, next + 1, key || cut)
  {
    ReadMore(file, next, |buf| - i, t);
    CutMore(t, file[next], key, split);
    var cut := !key && file[next] == EQUALS && split;
    var now := if cut then buf[i := NUL] else buf;
    assert now[..i + 1] == buf[..i] + [now[i]];
  }

  function Prepended(seen: seq<Bytes>, r: Option<(seq<Bytes>, bool)>): Option<(seq<Bytes>, bool)> {
    match r case None => None case Some((more, ended)) => Some((seen + more, ended))
  }

  lemma PrependedNothing(r: Option<(seq<Bytes>, bool)>)
    ensures Prepended([], r) == r
  {
    if r.Some? { assert [] + r.value.0 == r.value.0; }
  }

  // One string of the argument list.
  lemma ArgsOn(file: Bytes, pos: nat, buflen: nat, slots: nat, seen: seq<Bytes>)
    requires pos <= |file| && slots > 0
    ensures var r := Read(file[pos..], buflen);
            Prepended(seen, Args(file[pos..], buflen, slots)) ==
            if !r.1.AtEof? then Prepended(seen + [r.0], Args(file[pos + Consumed(r)..], buflen, slots - 1))
            else if r.0 == [] then Some((seen, true)) else None
    ensures var r := Read(file[pos..], buflen);
            Written(file[pos..], buflen, slots) ==
            if !r.1.AtEof? then 1 + Written(file[pos + Consumed(r)..], buflen, slots - 1)
            else if r.0 == [] then 1 else 0
  {
    var r := Read(file[pos..], buflen);
    assert seen + [] == seen;
    assert file[pos..][Consumed(r)..] == file[pos + Consumed(r)..];
    match Args(file[pos + Consumed(r)..], buflen, slots - 1)
    case None =>
    case Some((more, _)) => assert seen + ([r.0] + more) == seen + [r.0] + more;
  }

  ghost predicate Loading(file: Bytes, buflen: nat, slots: nat, was: seq<Slot>, now: seq<Slot>, seen: seq<Bytes>,
        pos: nat) {
    && |seen| <= slots && |seen| <= |was| && pos <= |file|
    && now == Slots(seen) + was[|seen|..]
    && Args(file, buflen, slots) == Prepended(seen, Args(file[pos..], buflen, slots - |seen|))
    && Written(file, buflen, slots) == |seen| + Written(file[pos..], buflen, slots - |seen|)
  }

  ghost predicate Loaded(r: Option<(seq<Bytes>, bool)>, was: seq<Slot>, now: seq<Slot>, ret: int) {
    && ret == (if r.None? then -1 else 0)
    && (r.Some? ==> var (args, ended) := r.value;
                    |args| + (if ended then 1 else 0) <= |was| && now == Fill(was, args, ended))
  }

  lemma LoadingStarts(file: Bytes, buflen: nat, slots: nat, was: seq<Slot>)
    ensures Loading(file, buflen, slots, was, was, [], 0)
  {
    assert file[0..] == file && was == Slots([]) + was[0..];
    PrependedNothing(Args(file, buflen, slots));
  }

  lemma LoadingOn(file: Bytes, buflen: nat, maxargs: nat, was: seq<Slot>, now: seq<Slot>, seen: seq<Bytes>, pos: nat)
    requires Loading(file, buflen, Room(maxargs), was, now, seen, pos) && |seen| < Room(maxargs)
    requires Written(file, buflen, Room(maxargs)) <= |was|
    ensures var r := Read(file[pos..], buflen);
            if !r.1.AtEof? then
              |seen| < |was| &&
              Loading(file, buflen, Room(maxargs), was, now[|seen| := Arg(r.0)], seen + [r.0], pos + Consumed(r))
            else if r.0 == [] then
              |seen| < |was| &&
              Loaded(Cmdline(file, buflen, maxargs), was, now[|seen| := Null], if seen == [] then -1 else 0)
            else Loaded(Cmdline(file, buflen, maxargs), was, now, -1)
  {
    ArgsOn(file, pos, buflen, Room(maxargs) - |seen|, seen);
    var r := Read(file[pos..], buflen);
    if !r.1.AtEof? || r.0 == [] {
      FillOne(was, seen, r.0);
      FillEnd(was, seen);
    }
  }

  lemma LoadingFull(file: Bytes, buflen: nat, maxargs: nat, was: seq<Slot>, now: seq<Slot>, seen: seq<Bytes>, pos: nat)
    requires Loading(file, buflen, Room(maxargs), was, now, seen, pos) && |seen| == Room(maxargs)
    ensures Loaded(Cmdline(file, buflen, maxargs), was, now, if seen == [] then -1 else 0)
  {
    assert seen + [] == seen;
  }

  class Init {
    var environ: Env

    constructor ()
      ensures environ == map[]
    {
      environ := map[];
    }

    // The loop both readers have: fill buf from position pos of the file on. With `split`, the first
    // "=" is overwritten by NUL.
    method ReadString(file: Bytes, pos: nat, buf: array<Byte>, split: bool)
      returns (i: nat, c: int, next: nat, key: bool)
      requires pos <= |file| && buf.Length > 0
      modifies buf
      ensures Holds(Read(file[pos..], buf.Length), pos, buf[..], split, i, c, next, key)
    {
      i, c, next, key := 0, EOF, pos, false;
      ghost var t: Bytes := [];
      ghost var whole := Read(file[pos..], buf.Length);
      ReadAfterNothing(whole);
      while i < buf.Length
        invariant Filling(whole, t, file, pos, buf[..], split, i, next, key)
        invariant i > 0 ==> c != EOF && c != 0
      {
        c := if next == |file| then EOF else Char(file[next]);
        if c == EOF {
          FillingEnds(whole, t, file, pos, buf[..], split, i, c, next, key);
          return;
        }
        ghost var before := buf[..];
        buf[i] := file[next];
        assert buf[..] == before[i := file[next]];
        if c == 0 {
          assert Filling(whole, t, file, pos, buf[..], split, i, next, key);
          FillingEnds(whole, t, file, pos, buf[..], split, i, c, next, key);
          next := next + 1;
          return;
        }
        FillingOn(whole, t, file, pos, buf[..], split, i, next, key);
        if !key && c == EQUALS && split {
          buf[i] := NUL;
          key := true;
        }
        t, i, next := t + [file[next]], i + 1, next + 1;
      }
      FillingEnds(whole, t, file, pos, buf[..], split, i, c, next, key);
    }

    // The body of the loop: one argument, or the null pointer at the end of the file.
    method LoadArg(file: Bytes, pos: nat, buf: array<Byte>, args: array<Slot>, n: nat, maxargs: nat,
          ghost was: seq<Slot>, ghost seen: seq<Bytes>)
      returns (i: nat, c: int, next: nat, ghost t: Bytes)
      requires buf.Length > 0 && n == |seen| < Room(maxargs) && Written(file, buf.Length, Room(maxargs)) <= |was|
      requires Loading(file, buf.Length, Room(maxargs), was, args[..], seen, pos)
      modifies buf, args
      ensures c != EOF ==> Loading(file, buf.Length, Room(maxargs), was, args[..], seen + [t], next)
      ensures c == EOF ==>
                Loaded(Cmdline(file, buf.Length, maxargs), was, args[..], if i > 0 || n == 0 then -1 else 0)
    {
      var key;
      i, c, next, key := ReadString(file, pos, buf, false);
      ghost var before := args[..];
      LoadingOn(file, buf.Length, maxargs, was, args[..], seen, pos);
      t := Read(file[pos..], buf.Length).0;
      if c == EOF {
        if i > 0 { return; }
        args[n] := Null;
        assert args[..] == before[n := Null];
        return;
      }
      args[n] := Arg(buf[..i]);
      assert buf[..i] == t && args[..] == before[n := Arg(t)];
    }

    method LoadCmdline(file: Bytes, buf: array<Byte>, args: array<Slot>, maxargs: nat) returns (ret: int)
      requires buf.Length > 0 && Written(file, buf.Length, Room(maxargs)) <= args.Length
      modifies buf, args
      ensures Loaded(Cmdline(file, buf.Length, maxargs), old(args[..]), args[..], ret)
    {
      ghost var was := args[..];
      ghost var seen: seq<Bytes> := [];
      LoadingStarts(file, buf.Length, Room(maxargs), was);
      var n: nat := 0;
      var pos: nat := 0;
      while n < maxargs - 1
        invariant Loading(file, buf.Length, Room(maxargs), was, args[..], seen, pos) && n == |seen|
      {
        var i, c, next, t := LoadArg(file, pos, buf, args, n, maxargs, was, seen);
        if c == EOF { return if i > 0 || n == 0 then -1 else 0; }
        seen := seen + [t];
        pos := next;
        n := n + 1;
      }
      LoadingFull(file, buf.Length, maxargs, was, args[..], seen, pos);
      return if n == 0 then -1 else 0;
    }

    // The body of the loop: one variable.
    method LoadVariable(file: Bytes, pos: nat, buf: array<Byte>, behind: Bytes)
      returns (bad: bool, done: bool, next: nat)
      requires pos <= |file| && buf.Length > 0
      modifies this, buf
      ensures var r := Variables(file[pos..], buf.Length, behind, old(environ));
              if bad then r.None?
              else if done then r == Some(environ)
              else pos < next <= |file| && r == Variables(file[next..], buf.Length, behind, environ)
    {
      bad, done := false, false;
      var i, c, key;
      i, c, next, key := ReadString(file, pos, buf, true);
      if c == EOF || !key {
        NoVariableRead(file, pos, buf[..], i, c, next, key, behind, environ);
        bad, done := c != EOF || i > 0, true;
        return;
      }
      VariableRead(file, pos, buf[..], i, c, next, behind, environ);
      var k := StringLength(buf);
      if i == k {
        bad := true;
        return;
      }
      var ok := SetEnv(buf[..k], buf[k + 1..i] + if i == buf.Length then behind else []);
      bad := !ok;
    }

    // `behind` is what lies in memory behind the buffer, up to NUL.
    method LoadEnviron(file: Bytes, buf: array<Byte>, behind: Bytes) returns (ret: int)
      requires buf.Length > 0
      modifies this, buf
      ensures var r := Variables(file, buf.Length, behind, old(environ));
              ret == (if r.None? then -1 else 0) && (r.Some? ==> environ == r.value)
    {
      var pos := 0;
      assert file[0..] == file;
      while true
        invariant pos <= |file|
        invariant Variables(file, buf.Length, behind, old(environ)) ==
                    Variables(file[pos..], buf.Length, behind, environ)
        decreases |file| - pos
      {
        var bad, done, next := LoadVariable(file, pos, buf, behind);
        if bad { return -1; }
        if done { return 0; }
        pos := next;
      }
    }

    // setenv with overwrite: an empty name is refused.
    method SetEnv(name: Bytes, value: Bytes) returns (ok: bool)
      modifies this
      ensures ok == (name != [])
      ensures environ == if ok then old(environ)[name := value] else old(environ)
    {
      ok := name != [];
      if ok { environ := environ[name := value]; }
    }
  }

  // What follows from the end of the file, or from a string without "=".
  lemma NoVariableRead(file: Bytes, pos: nat, buf: Bytes, i: nat, c: int, next: nat, key: bool, behind: Bytes, env: Env)
    requires pos <= |file| && buf != [] && (c == EOF || !key)
    requires Holds(Read(file[pos..], |buf|), pos, buf, true, i, c, next, key)
    ensures Variables(file[pos..], |buf|, behind, env) == if c == EOF && i == 0 then Some(env) else None
  {
  }

  // What follows from a string that has "=".
  lemma VariableRead(file: Bytes, pos: nat, buf: Bytes, i: nat, c: int, next: nat, behind: Bytes, env: Env)
    requires pos <= |file| && buf != [] && c != EOF
    requires Holds(Read(file[pos..], |buf|), pos, buf, true, i, c, next, true)
    ensures NUL in buf
    ensures var k := IndexOf(buf, NUL);
            && k < i <= |buf| && next <= |file| && pos < next
            && var value := buf[k + 1..i] + if i == |buf| then behind else [];
               Variables(file[pos..], |buf|, behind, env) ==
               if k == 0 then None else Variables(file[next..], |buf|, behind, env[buf[..k] := value])
  {
    var r := Read(file[pos..], |buf|);
    assert file[pos..][Consumed(r)..] == file[next..];
    ReadFills(file[pos..], |buf|);
    ReadStopsAtNul(file[pos..], |buf|);
    SplitInPlace(buf, r.0);
    var k := IndexOf(r.0, EQUALS);
    if k > 0 { SetSeen(env, r, behind, |buf|); }
  }

  lemma SetSeen(env: Env, r: (Bytes, Stop), behind: Bytes, room: nat)
    requires IsVariable(r.0) && |r.0| <= room
    ensures var more := if r.1.NoRoom? then behind else []; var k := IndexOf(r.0, EQUALS);
            IsVariable(Seen(r, behind)) && Set(env, Seen(r, behind)) == env[r.0[..k] := r.0[k + 1..] + more]
  {
    var more := if r.1.NoRoom? then behind else [];
    var k := IndexOf(r.0, EQUALS);
    IndexStays(r.0, more, EQUALS);
    assert (r.0 + more)[..k] == r.0[..k] && (r.0 + more)[k + 1..] == r.0[k + 1..] + more;
  }

  // In the buffer, the key is the string at its start and the value the string after it.
  lemma SplitInPlace(buf: Bytes, t: Bytes)
    requires |t| <= |buf| && NUL !in t && IndexOf(t, EQUALS) < |t| && buf[..|t|] == Cut(t, true)
    ensures NUL in buf && IndexOf(buf, NUL) == IndexOf(t, EQUALS)
    ensures var k := IndexOf(t, EQUALS); buf[..k] == t[..k] && buf[k + 1..|t|] == t[k + 1..]
  {
    var k := IndexOf(t, EQUALS);
    assert buf[..|t|][k] == NUL && buf[k] == NUL;
    assert forall j | 0 <= j < |t| :: buf[j] == buf[..|t|][j];
    IndexFound(buf, NUL);
  }
}
