/** The read-only files of kernel/ramfs.c. */
module RamFs {
  import opened EventRing

  const MODULE_BUFFER := 512          // MODULE_BUFFER_SIZE of kernel/main.c

  datatype Kind = TextFile | ModuleFile | ExecutableFile

  /** `text` is what a text file or a module holds. */
  datatype File = File(path: string, kind: Kind, size: nat, text: string)

  const README :=
    "Glass RAM filesystem\n" + "Use ls to list files, cat <path> to read text, and run <path> to load a module.\n"
  const ABOUT := "# RAMFS shell module\n" + "print Module loaded " + "through the " + "filesystem interface.\n"
  const MEMORY := "# Report allocator state\n" + "meminfo\n"

  const FILES: seq<File> :=
    [File("/README.TXT", TextFile, |README|, README),
     File("/modules/ABOUT.MOD", ModuleFile, |ABOUT|, ABOUT),
     File("/modules/MEMORY.MOD", ModuleFile, |MEMORY|, MEMORY),
     File("/bin/hello", ExecutableFile, 86, "")]

  /** ramfs_lookup, without the event it records: the first file with this path. */
  function LookupFrom(path: string, from: nat): Option<File>
    requires from <= |FILES|
    decreases |FILES| - from
  {
    if from == |FILES| then None
    else if FILES[from].path == path then Some(FILES[from])
    else LookupFrom(path, from + 1)
  }

  function Lookup(path: string): Option<File> { LookupFrom(path, 0) }

  method Find(path: string) returns (file: Option<File>)
    ensures file == Lookup(path)
  {
    var i := 0;
    while i < |FILES|
      invariant i <= |FILES| && Lookup(path) == LookupFrom(path, i)
    {
      if FILES[i].path == path {
        return Some(FILES[i]);
      }
      i := i + 1;
    }
    return None;
  }

  /** A module holds as many characters as its size says, and no NUL among them. */
  lemma ModuleHoldsText(path: string)
    requires Lookup(path).Some? && Lookup(path).value.kind == ModuleFile
    ensures var file := Lookup(path).value; |file.text| == file.size && '\0' !in file.text
  {
    FoundInFiles(path, 0);
    ModulesHoldText();
  }

  lemma {:induction false} FoundInFiles(path: string, from: nat)
    requires from <= |FILES|
    ensures LookupFrom(path, from).Some? ==> LookupFrom(path, from).value in FILES
    decreases |FILES| - from
  {
    if from < |FILES| {
      FoundInFiles(path, from + 1);
    }
  }

  lemma NoNul()
    ensures '\0' !in ABOUT && '\0' !in MEMORY
  {
    assert '\0' !in "# RAMFS shell module\n" && '\0' !in "print Module loaded ";
    assert '\0' !in "through the " && '\0' !in "filesystem interface.\n";
    assert '\0' !in "# Report allocator state\n" && '\0' !in "meminfo\n";
  }

  lemma ModulesHoldText()
    ensures forall file :: file in FILES && file.kind == ModuleFile ==> |file.text| == file.size && '\0' !in file.text
  {
    NoNul();
    hide README, ABOUT, MEMORY;
  }
}
