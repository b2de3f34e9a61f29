/**
  What crio-lxc-init makes of the files createList wrote, and of any other file.
 */
module InitTheorems {
  import opened Options
  import opened InitFiles

  // ---------------------------------------------------------------- what was written is read

  // Neither NUL nor 0xFF, which the reader takes for the end of the file.
  predicate Clean(t: Bytes) {
    NUL !in t && 255 !in t
  }

  predicate AllClean(entries: seq<Bytes>, buflen: nat) {
    forall i | 0 <= i < |entries| :: Clean(entries[i]) && |entries[i]| < buflen
  }

  lemma {:induction false} ReadClean(t: Bytes, rest: Bytes, room: nat)
    requires Clean(t) && |t| < room
    ensures Read(t + [NUL] + rest, room) == (t, AtNul)
  {
    var file := t + [NUL] + rest;
    if t != [] {
      assert file[0] == t[0] && t[0] in t && [t[0]] + t[1..] == t;
      assert file[1..] == t[1..] + [NUL] + rest;
      ReadClean(t[1..], rest, room - 1);
    }
  }

  // Reading back the list createList wrote gives its first `slots` entries, closed by a null pointer
  // exactly if there are fewer.
  lemma {:induction false} ArgsInvertPrint(entries: seq<Bytes>, buflen: nat, slots: nat)
    requires AllClean(entries, buflen) && buflen > 0
    ensures Args(Print(entries), buflen, slots) ==
            Some((entries[..if |entries| < slots then |entries| else slots], |entries| < slots))
    decreases slots
  {
    if slots > 0 && entries != [] {
      var rest := Print(entries[1..]);
      ReadClean(entries[0], rest, buflen);
      assert Print(entries)[|entries[0]| + 1..] == rest;
      ArgsInvertPrint(entries[1..], buflen, slots - 1);
      var m := if |entries| < slots then |entries| else slots;
      assert entries[..m] == [entries[0]] + entries[1..][..m - 1];
    }
  }

  // It takes a slot for each entry read and one for the null pointer.
  lemma {:induction false} SlotsOfPrinted(entries: seq<Bytes>, buflen: nat, slots: nat)
    requires AllClean(entries, buflen) && buflen > 0
    ensures Written(Print(entries), buflen, slots) == if |entries| < slots then |entries| + 1 else slots
    decreases slots
  {
    if slots > 0 && entries != [] {
      var rest := Print(entries[1..]);
      ReadClean(entries[0], rest, buflen);
      assert Print(entries)[|entries[0]| + 1..] == rest;
      SlotsOfPrinted(entries[1..], buflen, slots - 1);
    }
  }

  // The one call there is stays within the array exactly for lists of up to 255 arguments.
  lemma CallFits(entries: seq<Bytes>, buflen: nat)
    requires AllClean(entries, buflen) && buflen > 0
    ensures Written(Print(entries), buflen, Room(ARG_SLOTS * POINTER_BYTES)) <= ARG_SLOTS <==> |entries| < ARG_SLOTS
  {
    SlotsOfPrinted(entries, buflen, Room(ARG_SLOTS * POINTER_BYTES));
  }

  // The file up to the first byte 0xFF.
  function Effective(file: Bytes): Bytes {
    file[..IndexOf(file, 255)]
  }

  lemma {:induction false} ReadEffective(file: Bytes, room: nat)
    ensures Read(Effective(file), room) == Read(file, room)
  {
    if room > 0 && file != [] && file[0] != 255 {
      assert Effective(file) == [file[0]] + Effective(file[1..]);
      assert Effective(file)[1..] == Effective(file[1..]);
      ReadEffective(file[1..], room - 1);
    }
  }

  lemma {:induction false} ConsumedIsEffective(file: Bytes, room: nat)
    ensures Consumed(Read(file, room)) <= |Effective(file)|
  {
    if room > 0 && file != [] && file[0] != 255 { ConsumedIsEffective(file[1..], room - 1); }
  }

  lemma {:induction false} EffectiveDrop(file: Bytes, n: nat)
    requires n <= |Effective(file)|
    ensures Effective(file[n..]) == Effective(file)[n..]
  {
    if n > 0 {
      EffectiveDrop(file[1..], n - 1);
      assert file[n..] == file[1..][n - 1..];
      assert Effective(file) == [file[0]] + Effective(file[1..]);
    } else {
      assert file[0..] == file;
    }
  }

  // Behind a string that was read, the file and its effective part go on alike.
  lemma EffectiveRest(file: Bytes, room: nat)
    ensures Consumed(Read(file, room)) <= |Effective(file)|
    ensures Effective(file[Consumed(Read(file, room))..]) == Effective(file)[Consumed(Read(file, room))..]
  {
    ConsumedIsEffective(file, room);
    EffectiveDrop(file, Consumed(Read(file, room)));
  }

  lemma {:induction false} ArgsOfEffective(file: Bytes, buflen: nat, slots: nat)
    ensures Args(file, buflen, slots) == Args(Effective(file), buflen, slots)
    decreases slots
  {
    if slots > 0 {
      ReadEffective(file, buflen);
      EffectiveRest(file, buflen);
      ArgsOfEffective(file[Consumed(Read(file, buflen))..], buflen, slots - 1);
    }
  }

  lemma {:induction false} ReadIsClean(file: Bytes, room: nat)
    ensures Clean(Read(file, room).0)
  {
    if room > 0 && file != [] && file[0] != 255 && file[0] != NUL { ReadIsClean(file[1..], room - 1); }
  }

  lemma EffectiveHead(file: Bytes)
    requires file != [] && file[0] != 255
    ensures Effective(file) == [file[0]] + Effective(file[1..])
  {
  }

  // What the end of the file leaves is all that was read.
  lemma {:induction false} ReadToEnd(file: Bytes, room: nat)
    requires Read(file, room).1.AtEof?
    ensures Effective(file) == Read(file, room).0
  {
    if file != [] && file[0] != 255 {
      EffectiveHead(file);
      ReadToEnd(file[1..], room - 1);
    }
  }

  // A string that was read is followed by NUL and the rest.
  lemma {:induction false} ReadToNul(file: Bytes, room: nat)
    requires Read(file, room).1.AtNul?
    ensures var t := Read(file, room).0; Effective(file) == t + [NUL] + Effective(file[|t| + 1..])
  {
    EffectiveHead(file);
    if file[0] != NUL {
      var rest := file[1..];
      var t := Read(rest, room - 1).0;
      ReadToNul(rest, room - 1);
      assert file[|t| + 2..] == rest[|t| + 1..];
    }
  }

  // A list read to its end, from strings that do not fill the buffer, is what createList writes of it.
  lemma {:induction false} AcceptedIsPrinted(file: Bytes, buflen: nat, slots: nat)
    requires var r := Args(file, buflen, slots);
             r.Some? && r.value.1 && forall i | 0 <= i < |r.value.0| :: |r.value.0[i]| < buflen
    ensures var args := Args(file, buflen, slots).value.0;
            Effective(file) == Print(args) && AllClean(args, buflen) && |args| < slots
    decreases slots
  {
    ReadIsClean(file, buflen);
    var r := Read(file, buflen);
    if r.1.AtEof? {
      ReadToEnd(file, buflen);
    } else {
      var rest := file[Consumed(r)..];
      ShortRest(file, buflen, slots);
      ReadFills(file, buflen);
      ReadToNul(file, buflen);
      AcceptedIsPrinted(rest, buflen, slots - 1);
      ConsClean(r.0, Args(rest, buflen, slots - 1).value.0, buflen);
    }
  }

  // The first of such strings, and the others.
  lemma ShortRest(file: Bytes, buflen: nat, slots: nat)
    requires slots > 0 && !Read(file, buflen).1.AtEof?
    requires var r := Args(file, buflen, slots);
             r.Some? && r.value.1 && forall i | 0 <= i < |r.value.0| :: |r.value.0[i]| < buflen
    ensures var r := Read(file, buflen); var more := Args(file[Consumed(r)..], buflen, slots - 1);
            && |r.0| < buflen && more.Some? && more.value.1
            && Args(file, buflen, slots).value.0 == [r.0] + more.value.0
            && forall i | 0 <= i < |more.value.0| :: |more.value.0[i]| < buflen
  {
    var r := Read(file, buflen);
    var args, more := Args(file, buflen, slots).value.0, Args(file[Consumed(r)..], buflen, slots - 1).value.0;
    assert args == [r.0] + more && args[0] == r.0;
    assert forall i | 0 <= i < |more| :: more[i] == args[i + 1];
  }

  lemma ConsClean(t: Bytes, more: seq<Bytes>, buflen: nat)
    requires Clean(t) && |t| < buflen && AllClean(more, buflen)
    ensures AllClean([t] + more, buflen) && Print([t] + more) == t + [NUL] + Print(more)
  {
    assert ([t] + more)[1..] == more;
  }

  // The reader accepts a file as exactly these arguments, closed by a null pointer, if and only if it
  // is what createList writes of them and there are few enough.
  lemma AcceptsExactlyThePrinted(file: Bytes, args: seq<Bytes>, buflen: nat, slots: nat)
    requires AllClean(args, buflen) && buflen > 0
    ensures Args(file, buflen, slots) == Some((args, true)) <==> Effective(file) == Print(args) && |args| < slots
  {
    if Effective(file) == Print(args) && |args| < slots {
      ArgsOfEffective(file, buflen, slots);
      ArgsInvertPrint(args, buflen, slots);
      assert args[..|args|] == args;
    }
    if Args(file, buflen, slots) == Some((args, true)) { AcceptedIsPrinted(file, buflen, slots); }
  }

  // A file that is empty, or empty up to a byte 0xFF, is refused.
  lemma EmptyIsRefused(file: Bytes, buflen: nat, maxargs: nat)
    requires buflen > 0 && Effective(file) == []
    ensures Cmdline(file, buflen, maxargs).None?
  {
    if maxargs > 1 { AcceptsExactlyThePrinted(file, [], buflen, Room(maxargs)); }
  }

  lemma {:induction false} ReadUnended(t: Bytes, room: nat)
    requires Clean(t) && |t| < room
    ensures Read(t, room) == (t, AtEof)
  {
    if t != [] {
      assert t[0] in t && [t[0]] + t[1..] == t;
      ReadUnended(t[1..], room - 1);
    }
  }

  // So is a file that does not end in NUL.
  lemma {:induction false} UnendedIsRefused(entries: seq<Bytes>, t: Bytes, file: Bytes, buflen: nat, slots: nat)
    requires AllClean(entries, buflen) && Clean(t) && 0 < |t| < buflen && |entries| < slots
    requires Effective(file) == Print(entries) + t
    ensures Args(file, buflen, slots).None?
    decreases slots
  {
    ReadEffective(file, buflen);
    EffectiveRest(file, buflen);
    if entries == [] {
      assert Print(entries) + t == t;
      ReadUnended(t, buflen);
    } else {
      var rest := Print(entries[1..]) + t;
      assert Effective(file) == entries[0] + [NUL] + rest;
      ReadClean(entries[0], rest, buflen);
      var n := |entries[0]| + 1;
      assert Effective(file)[n..] == rest;
      UnendedIsRefused(entries[1..], t, file[n..], buflen, slots - 1);
    }
  }

  // ---------------------------------------------------------------- the environment that was written

  // All variables set one after another; None if one of them is malformed.
  function SetAll(env: Env, entries: seq<Bytes>): Option<Env>
    decreases |entries|
  {
    if entries == [] then Some(env)
    else if !IsVariable(entries[0]) then None
    else SetAll(Set(env, entries[0]), entries[1..])
  }

  lemma {:induction false} PrintFits(entries: seq<Bytes>, buflen: nat)
    requires AllClean(entries, buflen) && buflen > 0
    ensures Fits(Print(entries), buflen)
  {
    if entries != [] {
      var rest := Print(entries[1..]);
      ReadClean(entries[0], rest, buflen);
      assert Print(entries)[|entries[0]| + 1..] == rest;
      PrintFits(entries[1..], buflen);
    }
  }

  // What lies behind the buffer makes a difference only to files that do not fit.
  lemma {:induction false} BehindIsNotRead(file: Bytes, buflen: nat, a: Bytes, b: Bytes, env: Env)
    requires buflen > 0 && Fits(file, buflen)
    ensures Variables(file, buflen, a, env) == Variables(file, buflen, b, env)
    decreases |file|
  {
    var r := Read(file, buflen);
    if !r.1.AtEof? && IsVariable(r.0) {
      SetSeen(env, r, a, buflen);
      BehindIsNotRead(file[Consumed(r)..], buflen, a, b, Set(env, Seen(r, a)));
    }
  }

  // Reading the environment back sets exactly the variables that were written, in order.
  lemma {:induction false} VariablesInvertPrint(entries: seq<Bytes>, buflen: nat, behind: Bytes, env: Env)
    requires AllClean(entries, buflen) && buflen > 0
    ensures Variables(Print(entries), buflen, behind, env) == SetAll(env, entries)
    decreases |entries|
  {
    if entries != [] {
      var rest := Print(entries[1..]);
      ReadClean(entries[0], rest, buflen);
      assert Print(entries)[|entries[0]| + 1..] == rest;
      assert Seen((entries[0], AtNul), behind) == entries[0];
      if IsVariable(entries[0]) { VariablesInvertPrint(entries[1..], buflen, behind, Set(env, entries[0])); }
    }
  }

  lemma {:induction false} NotFound(t: Bytes, b: Byte)
    ensures IndexOf(t, b) == |t| <==> b !in t
  {
    if t != [] && t[0] != b { NotFound(t[1..], b); }
  }

  // An entry is refused exactly if it has no "=" or an empty key.
  lemma VariableHasKey(t: Bytes)
    ensures IsVariable(t) <==> EQUALS in t && t[0] != EQUALS
  {
    NotFound(t, EQUALS);
  }

  function Key(t: Bytes): Bytes {
    t[..IndexOf(t, EQUALS)]
  }

  function Value(t: Bytes): Bytes
    requires IsVariable(t)
  {
    t[IndexOf(t, EQUALS) + 1..]
  }

  lemma {:induction false} SetAllFails(env: Env, entries: seq<Bytes>)
    ensures SetAll(env, entries).None? <==> exists i | 0 <= i < |entries| :: !IsVariable(entries[i])
    decreases |entries|
  {
    if entries != [] && IsVariable(entries[0]) {
      SetAllFails(Set(env, entries[0]), entries[1..]);
      assert forall i | 0 <= i < |entries| - 1 :: entries[1..][i] == entries[i + 1];
      if i :| 0 <= i < |entries| && !IsVariable(entries[i]) { assert entries[1..][i - 1] == entries[i]; }
    }
  }

  // Entry i is the last one with this key.
  predicate IsLast(entries: seq<Bytes>, i: nat, key: Bytes) {
    i < |entries| && Key(entries[i]) == key && forall j | i < j < |entries| :: Key(entries[j]) != key
  }

  predicate HasKey(entries: seq<Bytes>, key: Bytes) {
    exists i | 0 <= i < |entries| :: Key(entries[i]) == key
  }

  // A key has the value of its last entry, and without an entry the value it had.
  lemma {:induction false} LastEntryWins(env: Env, entries: seq<Bytes>, key: Bytes) returns (i: nat)
    requires SetAll(env, entries).Some? && forall j | 0 <= j < |entries| :: IsVariable(entries[j])
    ensures var e := SetAll(env, entries).value;
            if HasKey(entries, key) then IsLast(entries, i, key) && key in e && e[key] == Value(entries[i])
            else (key in e <==> key in env) && (key in env ==> e[key] == env[key])
    decreases |entries|
  {
    i := 0;
    if entries != [] {
      var rest := entries[1..];
      assert forall j | 0 <= j < |rest| :: rest[j] == entries[j + 1];
      i := LastEntryWins(Set(env, entries[0]), rest, key);
      if HasKey(rest, key) {
        forall j | i + 1 < j < |entries| ensures Key(entries[j]) != key { assert rest[j - 1] == entries[j]; }
        i := i + 1;
        assert Key(entries[i]) == key;
      } else {
        forall j | 0 < j < |entries| ensures Key(entries[j]) != key { assert rest[j - 1] == entries[j]; }
        i := 0;
      }
    }
  }
}
