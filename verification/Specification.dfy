/**
  Parts of a container's specification that several programs share.
 */
module Specification {
  import opened Options

  // The user of the container's process.
  datatype User = User(uid: nat, gid: nat)

  // A device node to be made. Mode and owner may be left open.
  datatype Device = Device(path: string, typ: string, major: int, minor: int, mode: Option<nat>, uid: Option<nat>,
      gid: Option<nat>)
}
