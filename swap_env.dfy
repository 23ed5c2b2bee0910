/**
 * The Cypress plugin that swaps the application's environment file for the
 * test one and back. The filesystem is a map from path to content; a rename
 * of a missing file throws (ENOENT) and a rename onto an existing path
 * replaces it.
 */
module SwapEnv {
  import opened Wrappers

  type FileSystem = map<string, string>

  const Env: string := ".env"
  const Backup: string := ".env.backup"
  const CypressEnv: string := ".env.cypress"

  /** fs.renameSync(from, to), or None when it throws because `from` is missing. */
  function Rename(fs: FileSystem, from: string, to: string): (r: Option<FileSystem>)
    ensures r.None? <==> from !in fs
    ensures r.Some? ==> to in r.value && r.value[to] == fs[from]
    ensures r.Some? && from != to ==> from !in r.value
    ensures r.Some? ==> forall p :: p != from && p != to ==> (p in r.value <==> p in fs)
    ensures r.Some? ==> forall p :: p != from && p != to && p in fs ==> r.value[p] == fs[p]
  {
    if from !in fs then None else Some((fs - {from})[to := fs[from]])
  }

  /** Neither path is one of the three environment files. */
  predicate Untouched(p: string)
  {
    p != Env && p != Backup && p != CypressEnv
  }

  /** activateCypressEnvFile: .env becomes .env.backup, then .env.cypress becomes .env. */
  function ActivateCypress(fs: FileSystem): (r: Option<FileSystem>)
    ensures CypressEnv !in fs ==> r == Some(fs)
    ensures CypressEnv in fs ==> (r.Some? <==> Env in fs)
    ensures CypressEnv in fs && r.Some? ==>
      && Env in r.value && r.value[Env] == fs[CypressEnv]
      && Backup in r.value && r.value[Backup] == fs[Env]
      && CypressEnv !in r.value
    ensures r.Some? ==> forall p :: Untouched(p) ==> (p in r.value <==> p in fs)
    ensures r.Some? ==> forall p :: Untouched(p) && p in fs ==> r.value[p] == fs[p]
  {
    if CypressEnv !in fs then
      Some(fs)
    else
      match Rename(fs, Env, Backup)
      case None => None
      case Some(moved) => Rename(moved, CypressEnv, Env)
  }

  /** activateLocalEnvFile: .env becomes .env.cypress, then .env.backup becomes .env. */
  function ActivateLocal(fs: FileSystem): (r: Option<FileSystem>)
    ensures Backup !in fs ==> r == Some(fs)
    ensures Backup in fs ==> (r.Some? <==> Env in fs)
    ensures Backup in fs && r.Some? ==>
      && Env in r.value && r.value[Env] == fs[Backup]
      && CypressEnv in r.value && r.value[CypressEnv] == fs[Env]
      && Backup !in r.value
    ensures r.Some? ==> forall p :: Untouched(p) ==> (p in r.value <==> p in fs)
    ensures r.Some? ==> forall p :: Untouched(p) && p in fs ==> r.value[p] == fs[p]
  {
    if Backup !in fs then
      Some(fs)
    else
      match Rename(fs, Env, CypressEnv)
      case None => None
      case Some(moved) => Rename(moved, Backup, Env)
  }

  /** Activating the test file and then the local one restores the original filesystem. */
  lemma CypressThenLocal(fs: FileSystem)
    requires Env in fs && CypressEnv in fs && Backup !in fs
    ensures ActivateCypress(fs).Some?
    ensures ActivateLocal(ActivateCypress(fs).value) == Some(fs)
  {
    var swapped := ActivateCypress(fs).value;
    var back := ActivateLocal(swapped).value;
    assert back.Keys == fs.Keys;
    assert forall p :: p in fs ==> back[p] == fs[p];
    assert back == fs;
  }

  /** Activating the local file and then the test one restores the original filesystem. */
  lemma LocalThenCypress(fs: FileSystem)
    requires Env in fs && Backup in fs && CypressEnv !in fs
    ensures ActivateLocal(fs).Some?
    ensures ActivateCypress(ActivateLocal(fs).value) == Some(fs)
  {
    var restored := ActivateLocal(fs).value;
    var again := ActivateCypress(restored).value;
    assert again.Keys == fs.Keys;
    assert forall p :: p in fs ==> again[p] == fs[p];
    assert again == fs;
  }

  /** The working directory, changed in place by the plugin's tasks. */
  class Disk {
    var files: FileSystem

    constructor (files: FileSystem)
      ensures this.files == files
    {
      this.files := files;
    }

    /** fs.renameSync; `ok` is false when it throws, and then nothing has changed. */
    method RenameSync(from: string, to: string) returns (ok: bool)
      modifies this
      ensures ok == Rename(old(files), from, to).Some?
      ensures files == if ok then Rename(old(files), from, to).value else old(files)
    {
      if from !in files {
        return false;
      }
      files := (files - {from})[to := files[from]];
      ok := true;
    }

    /**
     * activateCypressEnvFile: `ok` means it returned null, false that a
     * rename threw; a throw happens before anything was renamed.
     */
    method ActivateCypressEnvFile() returns (ok: bool)
      modifies this
      ensures ok == ActivateCypress(old(files)).Some?
      ensures files == if ok then ActivateCypress(old(files)).value else old(files)
    {
      ok := true;
      if CypressEnv in files {
        ok := RenameSync(Env, Backup);
        if !ok {
          return;
        }
        ok := RenameSync(CypressEnv, Env);
      }
    }

    /** activateLocalEnvFile, with the same reading of `ok`. */
    method ActivateLocalEnvFile() returns (ok: bool)
      modifies this
      ensures ok == ActivateLocal(old(files)).Some?
      ensures files == if ok then ActivateLocal(old(files)).value else old(files)
    {
      ok := true;
      if Backup in files {
        ok := RenameSync(Env, CypressEnv);
        if !ok {
          return;
        }
        ok := RenameSync(Backup, Env);
      }
    }
  }

  /** A test run: swap in the test environment file, then put the local one back. */
  method TestRun(disk: Disk)
    requires Env in disk.files && CypressEnv in disk.files && Backup !in disk.files
    modifies disk
    ensures disk.files == old(disk.files)
  {
    var ok := disk.ActivateCypressEnvFile();
    ok := disk.ActivateLocalEnvFile();
    CypressThenLocal(old(disk.files));
  }
}
