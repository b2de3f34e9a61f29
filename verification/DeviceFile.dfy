/**
  devices.txt: the runtime writes a line per device, the container hook scans it.
 */
module DeviceFile {
  import opened Options
  import opened Devices
  import opened Specification

  const DEVICE_MODE: nat := 384 // 0600

  function OrElse<T>(o: Option<T>, t: T): T {
    match o case None => t case Some(v) => v
  }

  // The line of a device. The group of the process is printed whatever the device says; a device
  // without a group ends the program (a nil pointer is dereferenced).
  function Line(d: Device, user: User): Option<string> {
    if d.gid.None? then None else
    Some(d.path + " " + d.typ + " " + Decimal(d.major) + " " + Decimal(d.minor) + " " +
        Octal(OrElse(d.mode, DEVICE_MODE)) + " " +
         Decimal(OrElse(d.uid, user.uid)) + ":" + Decimal(user.gid) + "\n")
  }

  function Lines(devices: seq<Device>, user: User): Option<string> {
    if devices == [] then Some("") else
    match Line(devices[0], user)
    case None => None
    case Some(line) => match Lines(devices[1..], user) case None => None case Some(more) => Some(line + more)
  }

  // A nil list of devices leaves no file.
  datatype ListFile = NoFile | File(text: string) | Crash

  method WriteDevices(list: Option<seq<Device>>, user: User) returns (file: ListFile)
    ensures list.None? <==> file.NoFile?
    ensures list.Some? ==> file == match Lines(list.value, user) case None => Crash case Some(text) => File(text)
  {
    if list.None? { return NoFile; }
    var devices := list.value;
    var text := "";
    assert devices[0..] == devices;
    JoinNothing(Lines(devices, user));
    for i := 0 to |devices|
      invariant Lines(devices, user) == Joined(text, Lines(devices[i..], user))
    {
      var d := devices[i];
      LinesNext(devices[i..], user, text);
      assert devices[i..][1..] == devices[i + 1..];
      var uid := user.uid;
      if d.uid.Some? { uid := d.uid.value; }
      var gid := user.gid;
      if d.gid.None? { return Crash; }
      var mode := DEVICE_MODE;
      if d.mode.Some? { mode := d.mode.value; }
      text := text + (d.path + " " + d.typ + " " + Decimal(d.major) + " " + Decimal(d.minor) + " " + Octal(mode) + " " +
                      Decimal(uid) + ":" + Decimal(gid) + "\n");
    }
    assert text + "" == text;
    return File(text);
  }

  function Joined(text: string, o: Option<string>): Option<string> {
    match o case None => None case Some(s) => Some(text + s)
  }

  lemma JoinNothing(o: Option<string>)
    ensures Joined("", o) == o
  {
    if o.Some? { assert "" + o.value == o.value; }
  }

  lemma LinesNext(devices: seq<Device>, user: User, text: string)
    requires devices != []
    ensures Joined(text, Lines(devices, user)) ==
            match Line(devices[0], user) case None => None
                case Some(line) => Joined(text + line, Lines(devices[1..], user))
  {
    if Line(devices[0], user).Some? && Lines(devices[1..], user).Some? {
      var line, more := Line(devices[0], user).value, Lines(devices[1..], user).value;
      assert text + (line + more) == text + line + more;
    }
  }

  // ---------------------------------------------------------------- writing, then scanning

  // What the scanner is to find for a device.
  function Wanted(d: Device, user: User): Record
    requires |d.typ| == 1
  {
    Record(d.path, d.typ[0], d.major, d.minor, OrElse(d.mode, DEVICE_MODE), OrElse(d.uid, user.uid), user.gid)
  }

  function AllWanted(devices: seq<Device>, user: User): seq<Record>
    requires forall i | 0 <= i < |devices| :: |devices[i].typ| == 1
  {
    seq(|devices|, i requires 0 <= i < |devices| => Wanted(devices[i], user))
  }

  lemma {:induction false} LinesArePrinted(devices: seq<Device>, user: User)
    requires forall i | 0 <= i < |devices| :: |devices[i].typ| == 1
    ensures Lines(devices, user) ==
            if exists i | 0 <= i < |devices| :: devices[i].gid.None? then None
                else Some(PrintAll(AllWanted(devices, user)))
    decreases |devices|
  {
    if devices != [] {
      var rest := devices[1..];
      assert forall i | 0 <= i < |rest| :: rest[i] == devices[i + 1];
      LinesArePrinted(rest, user);
      assert AllWanted(devices, user)[1..] == AllWanted(rest, user);
      assert devices[0].typ == [devices[0].typ[0]];
      if exists i | 0 <= i < |devices| :: devices[i].gid.None? {
        var i :| 0 <= i < |devices| && devices[i].gid.None?;
        if i > 0 { assert rest[i - 1].gid.None?; }
      }
    }
  }

  // The hook scans exactly the devices the runtime wrote, with the group of the process instead of
  // their own.
  lemma ScannedIsWritten(devices: seq<Device>, user: User)
    requires forall i | 0 <= i < |devices| :: |devices[i].typ| == 1 && Scannable(Wanted(devices[i], user))
    requires Lines(devices, user).Some?
    ensures ScanAll(Lines(devices, user).value) == Some(AllWanted(devices, user))
  {
    LinesArePrinted(devices, user);
    ScanInvertsPrint(AllWanted(devices, user));
  }
}
