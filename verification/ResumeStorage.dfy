/** The saved state of one remote path: its file, its lock, and a run's access to both. */
module ResumeStorage {
  import opened Basics
  import opened UploadTypes

  datatype File = NoFile | Unreadable | Saved(state: ResumeState)

  // A save replaces the file, leaves it alone, or (remove, then a failing rename) leaves none.
  datatype SaveOutcome = SaveDone | SaveFailed | SaveLostFile

  function FileAfterSave(enabled: bool, file: File, state: ResumeState, outcome: SaveOutcome): File {
    if !enabled || outcome.SaveFailed? then file
    else if outcome.SaveDone? then Saved(state)
    else NoFile
  }

  function FileAfterRemove(enabled: bool, file: File, removed: bool): File {
    if enabled && removed then NoFile else file
  }

  function LoadedFile(enabled: bool, file: File): File {
    if enabled then file else NoFile
  }

  // The state file and the lock file, shared by all processes.
  class Disk {
    var file: File
    var holder: Option<nat>

    constructor ()
      ensures file == NoFile && holder == None
    {
      file, holder := NoFile, None;
    }
  }

  class ResumeStore {
    const disk: Disk
    const owner: nat
    const enabled: bool
    var released: bool

    // A store that is enabled and not released holds the lock.
    ghost predicate Valid()
      reads this, disk
    {
      enabled && !released ==> disk.holder == Some(owner)
    }

    // openMultipartResumeStore: without the lock the store is disabled.
    constructor (disk: Disk, owner: nat, wanted: bool)
      modifies disk
      ensures Valid() && !released && this.disk == disk && this.owner == owner
      ensures enabled <==> wanted && old(disk.holder) == None
      ensures disk.file == old(disk.file)
      ensures disk.holder == if enabled then Some(owner) else old(disk.holder)
    {
      this.disk, this.owner, released := disk, owner, false;
      enabled := wanted && disk.holder == None;
      new;
      if enabled {
        disk.holder := Some(owner);
      }
    }

    // An unreadable file is removed on the way, if that works.
    method Load(removed: bool) returns (loaded: File)
      requires Valid()
      modifies disk`file
      ensures Valid()
      ensures loaded == LoadedFile(enabled, old(disk.file))
      ensures disk.file ==
        if loaded.Unreadable? then FileAfterRemove(enabled, old(disk.file), removed) else old(disk.file)
      ensures loaded == if enabled then old(disk.file) else NoFile
      ensures disk.file == if enabled && old(disk.file).Unreadable? && removed then NoFile else old(disk.file)
    {
      if !enabled {
        return NoFile;
      }
      loaded := disk.file;
      if loaded.Unreadable? {
        Remove(removed);
      }
    }

    method Save(state: ResumeState, outcome: SaveOutcome)
      requires Valid()
      modifies disk`file
      ensures Valid()
      ensures disk.file == FileAfterSave(enabled, old(disk.file), state, outcome)
      ensures !enabled || outcome.SaveFailed? ==> disk.file == old(disk.file)
      ensures enabled && outcome.SaveDone? ==> disk.file == Saved(state)
      ensures enabled && outcome.SaveLostFile? ==> disk.file == NoFile
    {
      if enabled {
        match outcome {
          case SaveDone => disk.file := Saved(state);
          case SaveFailed =>
          case SaveLostFile => disk.file := NoFile;
        }
      }
    }

    method Remove(removed: bool)
      requires Valid()
      modifies disk`file
      ensures Valid()
      ensures disk.file == FileAfterRemove(enabled, old(disk.file), removed)
      ensures disk.file == if enabled && removed then NoFile else old(disk.file)
    {
      if enabled && removed {
        disk.file := NoFile;
      }
    }

    // Unlocks the first time only.
    method Release()
      requires Valid()
      modifies `released, disk`holder
      ensures Valid() && (enabled ==> released)
      ensures disk.holder == if enabled && !old(released) then None else old(disk.holder)
    {
      if enabled && !released {
        disk.holder := None;
      }
      released := true;
    }
  }
}
