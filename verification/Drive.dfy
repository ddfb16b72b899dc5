/** The base and the encrypted drive: what each lock-protected region of their methods does to the fields. */
module Drive {
  import opened Wrappers

  type Path = string

  /** The two drive types hold the same fields, but for the key, and their methods have the same regions;
      the kind picks the checks in which they differ. */
  datatype Kind = Base | Encrypted

  datatype Method = Unspecified | GuestMount | LoopDevice | OtherMethod

  datatype Options = Options(
    id: string,
    readonly: bool,
    ephemeral: bool,
    sizeBytes: int,
    fsType: string,
    mountMethod: Method)
  {
    predicate Validates() {
      id != "" && sizeBytes > 0 && !mountMethod.OtherMethod?
    }

    function FsType(): string {
      if fsType != "" then fsType else if readonly then "squashfs" else "ext4"
    }
  }

  datatype DriveError =
    | NoError | AlreadyMounted | NotMounted | CurrentlyUnmounting | NoUnmountFunc | NeedsMountPoint
    | SquashfsNotReadOnly | Unprivileged | NoTooling | NoDirectory | UnsupportedMethod | MountFailed
    | ReadOnlyDrive | SquashfsDrive | NotValid | DetachFailed | DirectoryLeft | ImageLeft

  /** `io` is the wait group's counter. `keyed` says that the key is there, and `destroys` counts how often
      it has been destroyed. */
  datatype Fields = Fields(
    params: Option<Options>,
    imagePath: Path,
    keyed: bool,
    mounted: bool,
    mountPoint: Path,
    hasUnmount: bool,
    unMounting: bool,
    io: nat,
    destroys: nat)

  /** What a mount finds: root rights, the encryption tools, a new directory, and whether mounting works. */
  datatype Host = Host(root: bool, tooling: bool, tempDir: Option<Path>, works: bool)

  // ----- the regions -----

  predicate Validates(kind: Kind, d: Fields) {
    && d.params.Some? && d.params.value.Validates()
    && (kind == Encrypted ==> d.imagePath != "" && d.keyed && d.params.value.FsType() == "ext4")
  }

  function MountErrorOf(kind: Kind, d: Fields, mountPoint: Path, host: Host): DriveError
    requires d.params.Some?
  {
    var p := d.params.value;
    if d.mounted then AlreadyMounted
    else if d.unMounting then CurrentlyUnmounting
    else if mountPoint == "" && !p.ephemeral then NeedsMountPoint
    else if kind == Base && p.FsType() == "squashfs" && !p.readonly then SquashfsNotReadOnly
    else if kind == Encrypted && !host.root then Unprivileged
    else if kind == Encrypted && !host.tooling then NoTooling
    else if mountPoint == "" && host.tempDir.None? then NoDirectory
    else if kind == Base && (p.mountMethod.Unspecified? || p.mountMethod.OtherMethod?) then UnsupportedMethod
    else if kind == Base && p.mountMethod.LoopDevice? && !host.root then Unprivileged
    else if !host.works then MountFailed
    else NoError
  }

  function Mount(kind: Kind, d: Fields, mountPoint: Path, host: Host): (Fields, DriveError)
    requires d.params.Some?
  {
    var error := MountErrorOf(kind, d, mountPoint, host);
    if error != NoError then (d, error)
    else
      var at := if mountPoint == "" then host.tempDir.value else mountPoint;
      (d.(mounted := true, mountPoint := at, hasUnmount := true), NoError)
  }

  /** What a mount needs, one thing after the other, and the refusal for each: no mount and no unmount under way, a
      place, a file system that can be mounted so, and the rights and tools that the kind of drive asks for. */
  predicate MountOutcome(kind: Kind, d: Fields, at: Path, host: Host, err: DriveError)
    requires d.params.Some?
  {
    var p := d.params.value;
    var free := !d.mounted && !d.unMounting;
    var placed := free && (at != "" || p.ephemeral);
    var fits := placed && !(kind == Base && p.fsType == "squashfs" && !p.readonly);
    var equipped := fits && (kind == Encrypted ==> host.root && host.tooling);
    var housed := equipped && (at != "" || host.tempDir.Some?);
    var allowed := housed
                && (kind == Base ==> p.mountMethod == GuestMount || (p.mountMethod == LoopDevice && host.root));
    && (err == AlreadyMounted <==> d.mounted)
    && (err == CurrentlyUnmounting <==> !d.mounted && d.unMounting)
    && (err == NeedsMountPoint <==> free && !placed)
    && (err == SquashfsNotReadOnly <==> placed && !fits)
    && (err == NoTooling <==> fits && kind == Encrypted && host.root && !host.tooling)
    && (err == NoDirectory <==> equipped && !housed)
    && (err == UnsupportedMethod <==> housed && kind == Base && p.mountMethod !in {GuestMount, LoopDevice})
    && (err == Unprivileged <==>
          !host.root && if kind == Encrypted then fits else housed && p.mountMethod == LoopDevice)
    && (err == MountFailed <==> allowed && !host.works)
    && (err == NoError <==> allowed && host.works)
  }

  lemma MountOutcomes(kind: Kind, d: Fields, at: Path, host: Host)
    requires d.params.Some?
    ensures MountOutcome(kind, d, at, host, Mount(kind, d, at, host).1)
  {}

  function BeginUnmountErrorOf(d: Fields): DriveError {
    if !d.mounted then NotMounted
    else if d.unMounting then CurrentlyUnmounting
    else if !d.hasUnmount then NoUnmountFunc
    else NoError
  }

  function BeginUnmount(d: Fields): (Fields, DriveError) {
    var error := BeginUnmountErrorOf(d);
    (if error == NoError then d.(unMounting := true) else d, error)
  }

  function AbortUnmount(d: Fields): Fields {
    d.(unMounting := false)
  }

  function FinishUnmount(d: Fields): Fields {
    d.(mounted := false, mountPoint := "", hasUnmount := false, unMounting := false)
  }

  datatype Op = Write | Load

  function BeginIoErrorOf(kind: Kind, d: Fields, op: Op): DriveError
    requires d.mounted ==> d.params.Some?
  {
    if !d.mounted then NotMounted
    else if d.unMounting then CurrentlyUnmounting
    else if op == Write && d.params.value.readonly then ReadOnlyDrive
    else if op == Write && kind == Base && d.params.value.FsType() == "squashfs" then SquashfsDrive
    else NoError
  }

  function BeginIo(kind: Kind, d: Fields, op: Op): (Fields, DriveError)
    requires d.mounted ==> d.params.Some?
  {
    var error := BeginIoErrorOf(kind, d, op);
    (if error == NoError then d.(io := d.io + 1) else d, error)
  }

  function EndIo(d: Fields): Fields
    requires d.io > 0
  {
    d.(io := d.io - 1)
  }

  predicate Ephemeral(d: Fields) {
    d.params.Some? && d.params.value.ephemeral
  }

  function FinishDelete(d: Fields): Fields {
    Fields(None, "", false, false, "", false, false, d.io, if d.keyed then d.destroys + 1 else d.destroys)
  }

  // ----- the drive as the program holds it -----

  class Key {
    ghost var destroys: nat

    method Destroy()
      modifies this
      ensures destroys == old(destroys) + 1
    {
      destroys := destroys + 1;
    }
  }

  class ImageDrive {
    const kind: Kind
    var params: Option<Options>
    var imagePath: Path
    var key: Key?
    var mounted: bool
    var mountPoint: Path
    var hasUnmount: bool
    var unMounting: bool
    var io: nat
    ghost const first: Key?

    constructor (kind: Kind, options: Options, imagePath: Path, key: Key?)
      requires key != null ==> key.destroys == 0
      ensures this.kind == kind && this.key == key && first == key
      ensures Valid() && Current() == Fields(Some(options), imagePath, key != null, false, "", false, false, 0, 0)
    {
      this.kind, this.imagePath, this.key, this.first := kind, imagePath, key, key;
      params := Some(options);
      mounted, mountPoint, hasUnmount, unMounting, io := false, "", false, false, 0;
    }

    ghost predicate Valid()
      reads this
    {
      && (mounted ==> params.Some?)
      && (key != null ==> key == first)
    }

    ghost function Current(): Fields
      reads this, first
    {
      Fields(params, imagePath, key != null, mounted, mountPoint, hasUnmount, unMounting, io,
             if first == null then 0 else first.destroys)
    }

    method Validate() returns (valid: bool)
      ensures valid == Validates(kind, Current())
      ensures valid <==>
                && params.Some? && params.value.id != "" && params.value.sizeBytes > 0
                && params.value.mountMethod in {Unspecified, GuestMount, LoopDevice}
                && (kind == Encrypted ==>
                      && imagePath != "" && key != null
                      && (params.value.fsType == "ext4" || (params.value.fsType == "" && !params.value.readonly)))
    {
      if params.None? || !params.value.Validates() {
        return false;
      }
      if kind == Encrypted {
        if imagePath == "" || key == null {
          return false;
        }
        return params.value.FsType() == "ext4";
      }
      return true;
    }

    method MountAt(at: Path, host: Host) returns (err: DriveError)
      requires Valid() && params.Some?
      modifies this
      ensures Valid() && (Current(), err) == Mount(kind, old(Current()), at, host)
      ensures MountOutcome(kind, old(Current()), at, host, err)
      ensures params == old(params) && imagePath == old(imagePath) && key == old(key) && io == old(io)
      ensures unMounting == old(unMounting)
      ensures err == NoError ==>
                mounted && hasUnmount && mountPoint == if at != "" then at else host.tempDir.value
      ensures err != NoError ==>
                mounted == old(mounted) && hasUnmount == old(hasUnmount) && mountPoint == old(mountPoint)
    {
      hide MountOutcome;
      MountOutcomes(kind, Current(), at, host);
      if mounted {
        return AlreadyMounted;
      }
      if unMounting {
        return CurrentlyUnmounting;
      }
      if at == "" && !params.value.ephemeral {
        return NeedsMountPoint;
      }
      if kind == Base && params.value.FsType() == "squashfs" && !params.value.readonly {
        return SquashfsNotReadOnly;
      }
      if kind == Encrypted {
        if !host.root {
          return Unprivileged;
        }
        if !host.tooling {
          return NoTooling;
        }
      }
      var chosen := at;
      if at == "" {
        if host.tempDir.None? {
          return NoDirectory;
        }
        chosen := host.tempDir.value;
      }
      if kind == Base {
        var mountMethod := params.value.mountMethod;
        if !mountMethod.GuestMount? && !mountMethod.LoopDevice? {
          return UnsupportedMethod;
        }
        if mountMethod.LoopDevice? && !host.root {
          return Unprivileged;
        }
      }
      if !host.works {
        return MountFailed;
      }
      mounted, mountPoint, hasUnmount := true, chosen, true;
      return NoError;
    }

    method StartUnmount() returns (err: DriveError)
      requires Valid()
      modifies this
      ensures Valid() && (Current(), err) == BeginUnmount(old(Current()))
      ensures err == NotMounted <==> !old(mounted)
      ensures err == CurrentlyUnmounting <==> old(mounted) && old(unMounting)
      ensures err == NoUnmountFunc <==> old(mounted) && !old(unMounting) && !old(hasUnmount)
      ensures err in {NoError, NotMounted, CurrentlyUnmounting, NoUnmountFunc}
      ensures Current() == if err == NoError then old(Current()).(unMounting := true) else old(Current())
    {
      if !mounted {
        return NotMounted;
      }
      if unMounting {
        return CurrentlyUnmounting;
      }
      if !hasUnmount {
        return NoUnmountFunc;
      }
      unMounting := true;
      return NoError;
    }

    method GiveUpUnmount()
      requires Valid()
      modifies this
      ensures Valid() && Current() == AbortUnmount(old(Current()))
      ensures !unMounting && Current().(unMounting := old(unMounting)) == old(Current())
    {
      unMounting := false;
    }

    method CompleteUnmount()
      requires Valid()
      modifies this
      ensures Valid() && Current() == FinishUnmount(old(Current()))
      ensures !mounted && mountPoint == "" && !hasUnmount && !unMounting
      ensures params == old(params) && imagePath == old(imagePath) && key == old(key) && io == old(io)
    {
      mounted := false;
      mountPoint := "";
      hasUnmount := false;
      unMounting := false;
    }

    /** The locked part of `WriteToDrive` and `LoadFromDrive`, which takes the snapshot of the mount point. */
    method StartIo(op: Op) returns (at: Path, err: DriveError)
      requires Valid()
      modifies this
      ensures Valid() && (Current(), err) == BeginIo(kind, old(Current()), op)
      ensures err == NoError ==> at == old(mountPoint)
      ensures err == NotMounted <==> !old(mounted)
      ensures err == CurrentlyUnmounting <==> old(mounted) && old(unMounting)
      ensures err == ReadOnlyDrive <==> old(mounted) && !old(unMounting) && op == Write && old(params.value.readonly)
      ensures err == SquashfsDrive <==>
                && old(mounted) && !old(unMounting) && op == Write && !old(params.value.readonly)
                && kind == Base && old(params.value.fsType) == "squashfs"
      ensures err in {NoError, NotMounted, CurrentlyUnmounting, ReadOnlyDrive, SquashfsDrive}
      ensures Current() == if err == NoError then old(Current()).(io := old(io) + 1) else old(Current())
    {
      at := "";
      if !mounted {
        return at, NotMounted;
      }
      if unMounting {
        return at, CurrentlyUnmounting;
      }
      if op == Write {
        if params.value.readonly {
          return at, ReadOnlyDrive;
        }
        if kind == Base && params.value.FsType() == "squashfs" {
          return at, SquashfsDrive;
        }
      }
      io := io + 1;
      return mountPoint, NoError;
    }

    method FinishIo()
      requires Valid() && io > 0
      modifies this
      ensures Valid() && io == old(io) - 1 && Current() == EndIo(old(Current()))
    {
      io := io - 1;
    }

    method Forget()
      requires Valid()
      modifies this, first
      ensures Valid() && Current() == FinishDelete(old(Current()))
      ensures params == None && imagePath == "" && key == null && io == old(io)
      ensures !mounted && mountPoint == "" && !hasUnmount && !unMounting
      ensures first != null ==>
                first.destroys == if old(key) != null then old(first.destroys) + 1 else old(first.destroys)
    {
      mounted := false;
      unMounting := false;
      hasUnmount := false;
      mountPoint := "";
      params := None;
      imagePath := "";
      if key != null {
        key.Destroy();
      }
      key := null;
    }

    // ----- whole calls, when no other call comes between their regions -----

    /** `WriteToDrive` or `LoadFromDrive`, whatever becomes of the file: the fields are as before, and the file
        operations ran, at the drive's mount point, exactly when no error is reported. */
    method DoIo(op: Op) returns (at: Path, err: DriveError)
      requires Valid()
      modifies this
      ensures Valid() && Current() == old(Current())
      ensures err == NotValid <==> !old(Validates(kind, Current()))
      ensures err == NoError ==> mounted && !unMounting && at == mountPoint
      ensures old(Validates(kind, Current())) ==>
                var writesTo := op == Write && mounted && !unMounting;
                && (err == NotMounted <==> !mounted)
                && (err == CurrentlyUnmounting <==> mounted && unMounting)
                && (err == ReadOnlyDrive <==> writesTo && params.value.readonly)
                && (err == SquashfsDrive <==>
                      writesTo && !params.value.readonly && kind == Base && params.value.fsType == "squashfs")
      ensures err in {NoError, NotValid, NotMounted, CurrentlyUnmounting, ReadOnlyDrive, SquashfsDrive}
    {
      at := "";
      var valid := Validate();
      if !valid {
        return at, NotValid;
      }
      at, err := StartIo(op);
      if err == NoError {
        FinishIo();
      }
    }

    /** `Unmount`, with what becomes of the unmount function and of the removal of the directory. With no I/O to
        wait for, it succeeds, changes nothing, or leaves the drive unmounting for good. */
    method Unmount(detaches: bool, removes: bool) returns (err: DriveError)
      requires Valid() && io == 0 && hasUnmount == mounted
      modifies this
      ensures Valid() && io == 0 && params == old(params) && imagePath == old(imagePath) && key == old(key)
      ensures hasUnmount == mounted && (first != null ==> first.destroys == old(first.destroys))
      ensures err == NoError <==>
                && old(mounted) && !old(unMounting) && detaches
                && (removes || !old(params.Some? && params.value.ephemeral) || old(mountPoint) == "")
      ensures err == NoError ==> !mounted && mountPoint == "" && !unMounting
      ensures err == NotMounted <==> !old(mounted)
      ensures err == CurrentlyUnmounting <==> old(mounted) && old(unMounting)
      ensures err == DetachFailed <==> old(mounted) && !old(unMounting) && !detaches
      ensures err == DirectoryLeft ==> mounted && unMounting && mountPoint == old(mountPoint)
      ensures err !in {NoError, DirectoryLeft} ==> Current() == old(Current())
      ensures err in {NoError, NotMounted, CurrentlyUnmounting, DetachFailed, DirectoryLeft}
    {
      err := StartUnmount();
      if err != NoError {
        return;
      }
      var at := mountPoint;
      var ephemeral := params.Some? && params.value.ephemeral;
      if !detaches {
        GiveUpUnmount();
        return DetachFailed;
      }
      if ephemeral && at != "" && !removes {
        return DirectoryLeft;
      }
      CompleteUnmount();
    }

    /** `Delete`: it succeeds on a drive that is not mounted or can be unmounted, and then destroys a key that is
        still there; in every other case the options, the image and the key stay. */
    method Delete(detaches: bool, removesDir: bool, removesImage: bool) returns (err: DriveError)
      requires Valid() && io == 0 && hasUnmount == mounted
      modifies this, first
      ensures Valid() && io == 0 && hasUnmount == mounted
      ensures err == NoError ==> params == None && !mounted && imagePath == "" && key == null
      ensures err == NoError && old(key) != null ==> first.destroys == old(first.destroys) + 1
      ensures err != NoError ==> params == old(params) && imagePath == old(imagePath) && key == old(key)
      ensures (err != NoError || old(key) == null) && first != null ==> first.destroys == old(first.destroys)
      ensures var ephemeral := old(params.Some? && params.value.ephemeral);
              var off := !old(mounted)
                      || (!old(unMounting) && detaches && (removesDir || !ephemeral || old(mountPoint) == ""));
              && (err == ImageLeft <==> off && ephemeral && old(imagePath) != "" && !removesImage)
              && (err == NoError <==> off && !(ephemeral && old(imagePath) != "" && !removesImage))
      ensures err == ImageLeft && old(mounted) ==> !mounted && mountPoint == "" && !unMounting
      ensures (err == ImageLeft && !old(mounted)) || err in {CurrentlyUnmounting, DetachFailed} ==>
                Current() == old(Current())
      ensures err == DirectoryLeft ==> mounted && unMounting && mountPoint == old(mountPoint)
      ensures err in {NoError, ImageLeft, CurrentlyUnmounting, DetachFailed, DirectoryLeft}
    {
      err := Unmount(detaches, removesDir);
      if err != NoError && err != NotMounted {
        return;
      }
      var ephemeral := params.Some? && params.value.ephemeral;
      if ephemeral && imagePath != "" && !removesImage {
        return ImageLeft;
      }
      Forget();
      return NoError;
    }
  }
}
