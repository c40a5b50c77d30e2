/**
 Release candidate manifests: the file inventory every candidate must carry, the manifest
 a preparation run writes, and the check that staging and publishing apply to it.
 */
module Manifests {
  import opened Common

  datatype FileInfo = FileInfo(sha256: string, size: int, group: string)

  datatype Manifest = Manifest(
    schema: int,
    repository: string,
    commit: string,
    version: string,
    workflow: string,
    runId: int,
    runAttempt: int,
    createdAt: int,
    signed: bool,
    checks: seq<string>,
    files: map<string, FileInfo>)

  const MANIFEST := "candidate-manifest.json"
  const WORKFLOW := ".github/workflows/release-candidate.yml"
  const GROUPS := ["linux", "windows", "macos", "audit-evidence"]
  const SIGNING_CHECK := "signatures-notarization"

  predicate IsDigit(c: char) { '0' <= c <= '9' }

  predicate IsHex(c: char) { IsDigit(c) || 'a' <= c <= 'f' }

  predicate IsSafe(c: char)
  {
    IsDigit(c) || 'A' <= c <= 'Z' || 'a' <= c <= 'z' || c == '_' || c == '.' || c == '-'
  }

  predicate AllSafe(s: string) { forall i | 0 <= i < |s| :: IsSafe(s[i]) }

  predicate IsHexOf(s: string, length: nat) { |s| == length && forall i | 0 <= i < |s| :: IsHex(s[i]) }

  predicate Digits(s: string) { s != "" && forall i | 0 <= i < |s| :: IsDigit(s[i]) }

  /** An x.y.z version in ASCII digits. */
  predicate IsVersion(v: string)
  {
    exists i, j | 0 <= i < j < |v| ::
      v[i] == '.' && v[j] == '.' && Digits(v[..i]) && Digits(v[i + 1..j]) && Digits(v[j + 1..])
  }

  /** The files a group must hold. */
  function RequiredFiles(version: string, signed: bool, group: string): set<string>
  {
    if group == "linux" then {
      "Raticode-" + version + "-x86_64.AppImage",
      "Raticode-" + version + "-amd64.deb",
      "Raticode-" + version + "-x86_64.rpm",
      "raticode-cli_" + version + "_amd64.deb",
      "raticode-cli-" + version + "-1.x86_64.rpm",
      "raticode-cli-linux-x64",
      "latest-linux.yml",
      "checksums-linux.txt",
      "package-tests-linux.json"
    } else if group == "windows" then {
      "Raticode-Setup-" + version + ".exe",
      "Raticode-Setup-" + version + ".exe.blockmap",
      "raticode-cli-windows-x64.exe",
      "latest.yml",
      "checksums-windows.txt",
      "package-tests-windows.json"
    } + (if signed then {"signatures-windows.json"} else {})
    else if group == "macos" then {
      "Raticode-" + version + "-arm64.dmg",
      "Raticode-" + version + "-arm64.dmg.blockmap",
      "Raticode-" + version + "-arm64.zip",
      "Raticode-" + version + "-arm64.zip.blockmap",
      "raticode-cli-macos-arm64",
      "latest-mac.yml",
      "checksums-macos.txt",
      "package-tests-macos.json"
    } + (if signed then {"notarization-macos-dmg.json", "notarization-macos-cli.json"} else {})
    else if group == "audit-evidence" then {
      "npm-audit.json",
      "python-audit.json",
      "npm-lock-inventory.json",
      "python-lock-inventory.txt"
    } else {}
  }

  /** Files a group may hold beside the required ones. */
  function OptionalFiles(version: string, group: string): set<string>
  {
    if group == "linux" then {"Raticode-" + version + "-x86_64.AppImage.blockmap"} else {}
  }

  predicate InventoryOk(actual: set<string>, version: string, signed: bool, group: string)
  {
    RequiredFiles(version, signed, group) <= actual
      <= RequiredFiles(version, signed, group) + OptionalFiles(version, group)
  }

  function NamesOfGroup(files: map<string, FileInfo>, group: string): set<string>
  {
    set name | name in files && files[name].group == group
  }

  predicate SafeFileName(name: string)
  {
    name != "." && name != ".." && name != MANIFEST && name != "" && AllSafe(name)
  }

  /** The check applied to a candidate's manifest before it is staged and before it is published. */
  predicate Validates(m: Manifest, repo: string, sha: string, version: string)
  {
    && m.schema == 1
    && m.repository == repo && m.commit == sha && m.version == version && m.workflow == WORKFLOW
    && (SIGNING_CHECK in m.checks <==> m.signed)
    && (forall g | g in GROUPS :: InventoryOk(NamesOfGroup(m.files, g), version, m.signed, g))
    && (forall name | name in m.files ::
          && SafeFileName(name)
          && m.files[name].group in GROUPS
          && IsHexOf(m.files[name].sha256, 64)
          && m.files[name].size > 0)
    && m.runId > 0 && m.runAttempt > 0
  }

  /** A manifest is valid for one repository, commit and version at most. */
  lemma ValidForOne(m: Manifest, repo: string, sha: string, version: string, repo': string, sha': string, version': string)
    requires Validates(m, repo, sha, version) && Validates(m, repo', sha', version')
    ensures repo == repo' && sha == sha' && version == version'
  {
  }

  /**
   Valid manifests of one version and signing policy list the same file names in each group, but for
   the optional block map, and all files in them have bytes.
   */
  lemma ValidManifestsAgree(m: Manifest, n: Manifest, repo: string, sha: string, repo': string, sha': string, version: string, g: string)
    requires Validates(m, repo, sha, version) && Validates(n, repo', sha', version) && m.signed == n.signed && g in GROUPS
    ensures var blockmap := "Raticode-" + version + "-x86_64.AppImage.blockmap";
            NamesOfGroup(m.files, g) - {blockmap} == NamesOfGroup(n.files, g) - {blockmap}
    ensures m.schema == n.schema == 1 && m.workflow == n.workflow
    ensures (SIGNING_CHECK in m.checks <==> SIGNING_CHECK in n.checks) && (SIGNING_CHECK in m.checks <==> m.signed)
    ensures forall name | name in m.files :: m.files[name].size > 0 && m.files[name].group in GROUPS
    ensures forall name | name in m.files :: |m.files[name].sha256| == 64 && AllSafe(name)
  {
    var required, optional := RequiredFiles(version, m.signed, g), OptionalFiles(version, g);
    assert InventoryOk(NamesOfGroup(m.files, g), version, m.signed, g) && InventoryOk(NamesOfGroup(n.files, g), version, n.signed, g);
    SameButFor(NamesOfGroup(m.files, g), NamesOfGroup(n.files, g), required, "Raticode-" + version + "-x86_64.AppImage.blockmap");
  }

  lemma SameButFor(a: set<string>, b: set<string>, required: set<string>, extra: string)
    requires required <= a <= required + {extra} && required <= b <= required + {extra}
    ensures a - {extra} == b - {extra}
  {
  }

  /** One file of a downloaded artifact folder; its digest comes from hashing it. */
  datatype LocalFile = LocalFile(name: string, sha256: string, size: nat)

  /** Artifact folders, one per group, in directory order. */
  type Folders = map<string, seq<LocalFile>>

  predicate WellFormedFolder(folder: seq<LocalFile>)
  {
    && (forall i | 0 <= i < |folder| :: IsHexOf(folder[i].sha256, 64))
    && (forall i, j | 0 <= i < j < |folder| :: folder[i].name != folder[j].name)
  }

  predicate WellFormedFolders(folders: Folders) { forall g | g in folders :: WellFormedFolder(folders[g]) }

  function NamesIn(folder: seq<LocalFile>): set<string>
  {
    set i | 0 <= i < |folder| :: folder[i].name
  }

  /** No file name occurs in two groups. */
  predicate NoCollision(folders: Folders)
  {
    forall g, h | g in folders && h in folders && g != h :: NamesIn(folders[g]) !! NamesIn(folders[h])
  }

  predicate AllNonEmpty(folders: Folders)
  {
    forall g, i | g in folders && 0 <= i < |folders[g]| :: folders[g][i].size > 0
  }

  /** `files` records exactly the files of the groups in `done`. */
  ghost predicate Records(files: map<string, FileInfo>, folders: Folders, done: set<string>)
  {
    && (forall g, i | g in done && g in folders && 0 <= i < |folders[g]| ::
          var f := folders[g][i];
          f.name in files && files[f.name] == FileInfo(f.sha256, f.size, g))
    && (forall name | name in files ::
          files[name].group in done && files[name].group in folders && name in NamesIn(folders[files[name].group]))
  }

  /** Adds one group's files to the inventory, refusing a name that is already there. */
  method AddGroup(files: map<string, FileInfo>, folders: Folders, group: string, ghost done: set<string>)
    returns (r: Result<map<string, FileInfo>>)
    requires WellFormedFolders(folders) && group in folders && group !in done && done <= folders.Keys
    requires Records(files, folders, done)
    ensures r.Ok? ==> Records(r.value, folders, done + {group})
    ensures r.Ok? <==> forall g | g in done :: NamesIn(folders[g]) !! NamesIn(folders[group])
  {
    var next := files;
    var folder := folders[group];
    var i := 0;
    while i < |folder|
      invariant 0 <= i <= |folder|
      invariant next.Keys == files.Keys + NamesIn(folder[..i])
      invariant files.Keys !! NamesIn(folder[..i])
      invariant forall name | name in files :: next[name] == files[name]
      invariant forall k | 0 <= k < i :: folder[k].name in next
                                         && next[folder[k].name] == FileInfo(folder[k].sha256, folder[k].size, group)
    {
      var f := folder[i];
      if f.name in next {
        assert f.name !in NamesIn(folder[..i]);
        assert f.name in NamesIn(folder);
        assert f.name in NamesIn(folders[files[f.name].group]);
        return Err("Artifact filename collision");
      }
      next := next[f.name := FileInfo(f.sha256, f.size, group)];
      assert folder[..i + 1] == folder[..i] + [f];
      assert NamesIn(folder[..i + 1]) == NamesIn(folder[..i]) + {f.name};
      i := i + 1;
    }
    assert folder[..i] == folder;
    forall name | name in next
      ensures next[name].group in done + {group} && next[name].group in folders
              && name in NamesIn(folders[next[name].group])
    {
      if name !in files {
        assert name in NamesIn(folder);
      }
    }
    forall g | g in done
      ensures NamesIn(folders[g]) !! NamesIn(folder)
    {
      forall n | n in NamesIn(folders[g])
        ensures n in files
      {
        var k :| 0 <= k < |folders[g]| && folders[g][k].name == n;
        assert folders[g][k].name in files;
      }
    }
    r := Ok(next);
  }

  // What the artifact folders say about themselves

  datatype Checksum = Checksum(name: string, sha256: string)

  datatype Signature = Signature(file: string, valid: bool)

  /**
   What a folder's own records hold: whether all its entries are plain files, its checksum lines
   (None when one cannot be read), whether its package tests passed for this version, the signatures
   of its programs, and whether both notarizations were accepted.
   */
  datatype Evidence = Evidence(
    plain: bool,
    checksums: Option<seq<Checksum>>,
    tested: bool,
    signatures: seq<Signature>,
    notarized: bool)

  type Proofs = map<string, Evidence>

  predicate IsProgram(name: string) { |name| >= 4 && name[|name| - 4..] == ".exe" }

  function ChecksumFile(group: string): string { "checksums-" + group + ".txt" }

  function ChecksumNames(lines: seq<Checksum>): set<string> { set i | 0 <= i < |lines| :: lines[i].name }

  /** Each file but the list itself is listed once, with its digest. */
  predicate ChecksumsOk(folder: seq<LocalFile>, lines: seq<Checksum>, group: string)
  {
    && (forall i, j | 0 <= i < j < |lines| :: lines[i].name != lines[j].name)
    && ChecksumNames(lines) == NamesIn(folder) - {ChecksumFile(group)}
    && forall i, k | 0 <= i < |folder| && 0 <= k < |lines| && folder[i].name == lines[k].name ::
         folder[i].sha256 == lines[k].sha256
  }

  /** Every program is signed, and every signature is of one and valid. */
  predicate SignaturesOk(names: set<string>, signatures: seq<Signature>)
  {
    && (set i | 0 <= i < |signatures| :: signatures[i].file) == (set n | n in names && IsProgram(n))
    && forall i | 0 <= i < |signatures| :: signatures[i].valid
  }

  predicate EvidenceOk(folder: seq<LocalFile>, e: Evidence, signed: bool, group: string)
  {
    && e.plain
    && (group != "audit-evidence" ==>
          && e.checksums.Some? && ChecksumsOk(folder, e.checksums.value, group)
          && e.tested
          && (signed && group == "windows" ==> SignaturesOk(NamesIn(folder), e.signatures))
          && (signed && group == "macos" ==> e.notarized))
  }

  /** The folder holds what its group must, and its own records bear it out. */
  predicate GroupOk(folder: seq<LocalFile>, e: Evidence, version: string, signed: bool, group: string)
  {
    InventoryOk(NamesIn(folder), version, signed, group) && EvidenceOk(folder, e, signed, group)
  }

  lemma EarlierName(lines: seq<Checksum>, k: nat)
    requires k < |lines| && lines[k].name in ChecksumNames(lines[..k])
    ensures exists i :: 0 <= i < k && lines[i].name == lines[k].name
  {
    var i :| 0 <= i < k && lines[..k][i].name == lines[k].name;
    assert lines[i].name == lines[k].name;
  }

  /** The map holds the lines, and no name is listed twice. */
  predicate Read(lines: seq<Checksum>, sums: map<string, string>)
  {
    && (forall i, j | 0 <= i < j < |lines| :: lines[i].name != lines[j].name)
    && sums.Keys == ChecksumNames(lines)
    && forall i | 0 <= i < |lines| :: lines[i].name in sums && sums[lines[i].name] == lines[i].sha256
  }

  lemma ReadMore(lines: seq<Checksum>, sums: map<string, string>, line: Checksum)
    requires Read(lines, sums) && line.name !in sums
    ensures Read(lines + [line], sums[line.name := line.sha256])
  {
    var more := lines + [line];
    assert forall i | 0 <= i < |lines| :: more[i] == lines[i] && lines[i].name in ChecksumNames(lines);
    assert more[|lines|] == line;
  }

  /** Reads the checksum lines into a map; None when a name is listed twice. */
  method ReadChecksums(lines: seq<Checksum>) returns (r: Option<map<string, string>>)
    ensures r.Some? <==> forall i, j | 0 <= i < j < |lines| :: lines[i].name != lines[j].name
    ensures r.Some? ==> Read(lines, r.value)
  {
    var sums: map<string, string> := map[];
    var k := 0;
    while k < |lines|
      invariant 0 <= k <= |lines|
      invariant Read(lines[..k], sums)
    {
      if lines[k].name in sums {
        EarlierName(lines, k);
        return None;
      }
      TakeSnoc(lines, k);
      ReadMore(lines[..k], sums, lines[k]);
      sums := sums[lines[k].name := lines[k].sha256];
      k := k + 1;
    }
    assert lines[..k] == lines;
    r := Some(sums);
  }

  /** Checks the digests of a folder against its own list. */
  method CheckDigests(folder: seq<LocalFile>, lines: seq<Checksum>, group: string) returns (ok: bool)
    ensures ok <==> ChecksumsOk(folder, lines, group)
  {
    var sums := ReadChecksums(lines);
    if sums.None? {
      return false;
    }
    if sums.value.Keys != NamesIn(folder) - {ChecksumFile(group)} {
      return false;
    }
    var i := 0;
    while i < |folder|
      invariant 0 <= i <= |folder|
      invariant forall j | 0 <= j < i && folder[j].name in sums.value :: folder[j].sha256 == sums.value[folder[j].name]
    {
      if folder[i].name in sums.value && folder[i].sha256 != sums.value[folder[i].name] {
        var k :| 0 <= k < |lines| && lines[k].name == folder[i].name;
        return false;
      }
      i := i + 1;
    }
    ok := true;
  }

  method VerifyGroup(folder: seq<LocalFile>, e: Evidence, version: string, signed: bool, group: string) returns (ok: bool)
    ensures ok <==> GroupOk(folder, e, version, signed, group)
  {
    if !InventoryOk(NamesIn(folder), version, signed, group) || !e.plain {
      return false;
    }
    if group == "audit-evidence" {
      return true;
    }
    if e.checksums.None? {
      return false;
    }
    var listed := CheckDigests(folder, e.checksums.value, group);
    if !listed || !e.tested {
      return false;
    }
    if signed && group == "windows" && !SignaturesOk(NamesIn(folder), e.signatures) {
      return false;
    }
    ok := !(signed && group == "macos") || e.notarized;
  }

  // Preparation

  /** An artifact of the run, as its listing shows it. */
  datatype Artifact = Artifact(name: string, id: nat, expired: bool)

  const PREFIX := "raticode-"

  function Recorded(artifacts: seq<Artifact>): seq<Artifact>
  {
    if artifacts == [] then []
    else
      var last := artifacts[|artifacts| - 1];
      Recorded(artifacts[..|artifacts| - 1]) + if PREFIX <= last.name then [last] else []
  }

  /** One artifact a group, none expired. */
  predicate ArtifactsOk(artifacts: seq<Artifact>)
  {
    var records := Recorded(artifacts);
    && |records| == |GROUPS|
    && (set i | 0 <= i < |records| :: records[i].name) == (set g | g in GROUPS :: PREFIX + g)
    && forall i | 0 <= i < |records| :: !records[i].expired && records[i].id != 0
  }

  /** The groups' inventories are complete and share no file name. */
  predicate Inventoried(folders: Folders, version: string, signed: bool)
  {
    && folders.Keys == Elements(GROUPS)
    && (forall g | g in folders :: InventoryOk(NamesIn(folders[g]), version, signed, g))
    && NoCollision(folders)
  }

  /** What a preparation run finds. */
  datatype Preparation = Preparation(folders: Folders, proofs: Proofs, artifacts: seq<Artifact>, outputEmpty: bool)

  predicate WellFormed(p: Preparation) { WellFormedFolders(p.folders) && p.folders.Keys <= p.proofs.Keys }

  /** What a preparation run accepts. */
  predicate Acceptable(p: Preparation, version: string, signed: bool, sha: string)
    requires p.folders.Keys <= p.proofs.Keys
  {
    && IsHexOf(sha, 40) && ArtifactsOk(p.artifacts) && p.outputEmpty
    && Inventoried(p.folders, version, signed)
    && (forall g | g in p.folders :: EvidenceOk(p.folders[g], p.proofs[g], signed, g))
  }

  /** In an accepted preparation the bytes of every package file are what its group's list says, so a changed file is refused. */
  lemma TamperedRefused(p: Preparation, version: string, signed: bool, sha: string, g: string, i: nat, digest: string)
    requires WellFormed(p) && Acceptable(p, version, signed, sha) && g in p.folders && i < |p.folders[g]|
    requires g != "audit-evidence" && p.folders[g][i].name != "checksums-" + g + ".txt" && digest != p.folders[g][i].sha256
    ensures var changed := p.folders[g][i := p.folders[g][i].(sha256 := digest)];
            !Acceptable(p.(folders := p.folders[g := changed]), version, signed, sha)
  {
    var folder, lines := p.folders[g], p.proofs[g].checksums.value;
    var changed := folder[i := folder[i].(sha256 := digest)];
    var name := folder[i].name;
    assert EvidenceOk(folder, p.proofs[g], signed, g) && name in NamesIn(folder);
    assert name in ChecksumNames(lines);
    var k :| 0 <= k < |lines| && lines[k].name == name;
    assert lines[k].sha256 == folder[i].sha256;
    assert changed[i].name == lines[k].name && changed[i].sha256 != lines[k].sha256;
    assert !ChecksumsOk(changed, lines, g);
    assert p.folders[g := changed][g] == changed;
  }

  lemma ProgramSigned(folder: seq<LocalFile>, signatures: seq<Signature>, i: nat)
    requires SignaturesOk(NamesIn(folder), signatures) && i < |folder| && IsProgram(folder[i].name)
    ensures Signature(folder[i].name, true) in signatures
  {
    var name, names := folder[i].name, NamesIn(folder);
    var files, programs := set k | 0 <= k < |signatures| :: signatures[k].file, set n | n in names && IsProgram(n);
    assert files == programs;
    assert name in names;
    assert name in programs;
    var k :| 0 <= k < |signatures| && signatures[k].file == name;
    assert signatures[k].valid && signatures[k] == Signature(name, true);
  }

  /** In an accepted signed preparation every Windows program has a valid signature, and macOS is notarized. */
  lemma SignedMeansSigned(p: Preparation, version: string, sha: string, i: nat)
    requires WellFormed(p) && Acceptable(p, version, true, sha)
    ensures "windows" in p.folders && "macos" in p.folders && p.proofs["macos"].notarized
    ensures i < |p.folders["windows"]| && IsProgram(p.folders["windows"][i].name) ==>
              Signature(p.folders["windows"][i].name, true) in p.proofs["windows"].signatures
  {
    assert GROUPS[1] == "windows" && GROUPS[2] == "macos";
    assert "windows" in Elements(GROUPS) && "macos" in Elements(GROUPS);
    assert EvidenceOk(p.folders["windows"], p.proofs["windows"], true, "windows");
    assert EvidenceOk(p.folders["macos"], p.proofs["macos"], true, "macos");
    if i < |p.folders["windows"]| && IsProgram(p.folders["windows"][i].name) {
      ProgramSigned(p.folders["windows"], p.proofs["windows"].signatures, i);
    }
  }

  /** And every group's packages passed their tests, and its folder held plain files only. */
  lemma PackagesTested(p: Preparation, version: string, signed: bool, sha: string, g: string)
    requires WellFormed(p) && Acceptable(p, version, signed, sha) && g in p.folders
    ensures p.proofs[g].plain && (g != "audit-evidence" ==> p.proofs[g].tested)
  {
    assert EvidenceOk(p.folders[g], p.proofs[g], signed, g);
  }

  ghost predicate Complete(folders: Folders, proofs: Proofs, groups: set<string>, version: string, signed: bool)
    requires groups <= folders.Keys <= proofs.Keys
  {
    forall g | g in groups :: GroupOk(folders[g], proofs[g], version, signed, g)
  }

  ghost predicate Disjoint(folders: Folders, groups: set<string>)
    requires groups <= folders.Keys
  {
    forall g, h | g in groups && h in groups && g != h :: NamesIn(folders[g]) !! NamesIn(folders[h])
  }

  function Elements<T>(s: seq<T>): set<T> { set x | x in s }

  /** One more group recorded. */
  lemma GroupAdded(folders: Folders, proofs: Proofs, done: set<string>, group: string, version: string, signed: bool)
    requires done <= folders.Keys <= proofs.Keys && group in folders && group !in done
    requires Complete(folders, proofs, done, version, signed) && Disjoint(folders, done)
    ensures GroupOk(folders[group], proofs[group], version, signed, group)
            && (forall g | g in done :: NamesIn(folders[g]) !! NamesIn(folders[group]))
            <==> Complete(folders, proofs, done + {group}, version, signed) && Disjoint(folders, done + {group})
  {
  }

  lemma FewerGroups(folders: Folders, proofs: Proofs, done: set<string>, all: set<string>, version: string, signed: bool)
    requires done <= all <= folders.Keys <= proofs.Keys
    ensures Complete(folders, proofs, all, version, signed) && Disjoint(folders, all)
            ==> Complete(folders, proofs, done, version, signed) && Disjoint(folders, done)
  {
  }

  lemma NextGroup(groups: seq<string>, k: nat)
    requires Distinct(groups) && k < |groups|
    ensures groups[k] in Elements(groups) && groups[k] !in Elements(groups[..k])
    ensures Elements(groups[..k + 1]) == Elements(groups[..k]) + {groups[k]} <= Elements(groups)
  {
    TakeSnoc(groups, k);
  }

  /** Checks and records the groups one after another. */
  method RecordGroups(folders: Folders, proofs: Proofs, groups: seq<string>, version: string, signed: bool)
    returns (r: Result<map<string, FileInfo>>)
    requires WellFormedFolders(folders) && Distinct(groups) && Elements(groups) <= folders.Keys <= proofs.Keys
    ensures r.Ok? ==> Records(r.value, folders, Elements(groups))
    ensures r.Ok? <==> Complete(folders, proofs, Elements(groups), version, signed) && Disjoint(folders, Elements(groups))
  {
    var files: map<string, FileInfo> := map[];
    var k := 0;
    ghost var done: set<string> := {};
    while k < |groups|
      invariant 0 <= k <= |groups|
      invariant done == Elements(groups[..k]) && done <= folders.Keys
      invariant Records(files, folders, done)
      invariant Complete(folders, proofs, done, version, signed) && Disjoint(folders, done)
    {
      var group := groups[k];
      NextGroup(groups, k);
      GroupAdded(folders, proofs, done, group, version, signed);
      FewerGroups(folders, proofs, done + {group}, Elements(groups), version, signed);
      var ok := VerifyGroup(folders[group], proofs[group], version, signed, group);
      if !ok {
        return Err("Group is not complete and borne out");
      }
      var added := AddGroup(files, folders, group, done);
      if added.Err? {
        return Err(added.reason);
      }
      files := added.value;
      done := done + {group};
      k := k + 1;
    }
    assert groups[..k] == groups;
    r := Ok(files);
  }

  /** The checks a preparation run records. */
  function ChecksOf(signed: bool): seq<string>
  {
    ["source-validation", "platform-runtime", "distribution-backends", "updater-hashes"]
    + (if signed then [SIGNING_CHECK] else [])
  }

  lemma AcceptableByGroup(p: Preparation, version: string, signed: bool, sha: string)
    requires WellFormed(p) && IsHexOf(sha, 40) && ArtifactsOk(p.artifacts) && p.outputEmpty
    requires p.folders.Keys == Elements(GROUPS)
    ensures Acceptable(p, version, signed, sha)
            <==> Complete(p.folders, p.proofs, p.folders.Keys, version, signed) && Disjoint(p.folders, p.folders.Keys)
  {
  }

  /** Writes the manifest of a preparation run, group by group. */
  method CreateManifest(p: Preparation, repo: string, sha: string, version: string, runId: int, attempt: int,
                        now: int, signed: bool)
    returns (r: Result<Manifest>)
    requires WellFormed(p)
    ensures r.Ok? <==> Acceptable(p, version, signed, sha)
    ensures r.Ok? ==>
              && (Validates(r.value, repo, sha, version)
                  <==> runId > 0 && attempt > 0 && AllNonEmpty(p.folders) && AllSafe(version))
              && Records(r.value.files, p.folders, p.folders.Keys)
  {
    if !IsHexOf(sha, 40) {
      return Err("Expected full source SHA");
    }
    if p.folders.Keys != Elements(GROUPS) {
      return Err("Expected exactly all three platform artifacts and audit evidence");
    }
    if !ArtifactsOk(p.artifacts) {
      return Err("Run artifact inventory is incomplete, ambiguous or expired");
    }
    if !p.outputEmpty {
      return Err("Manifest output directory must be empty");
    }
    GroupsDistinct();
    AcceptableByGroup(p, version, signed, sha);
    var recorded := RecordGroups(p.folders, p.proofs, GROUPS, version, signed);
    if recorded.Err? {
      return Err(recorded.reason);
    }
    var files := recorded.value;
    var m := Manifest(1, repo, sha, version, WORKFLOW, runId, attempt, now, signed, ChecksOf(signed), files);
    ManifestValidity(m, p.folders, repo, sha, version, runId, attempt);
    r := Ok(m);
  }

  /**
   Nothing vouches for the size of an audit report: emptying one leaves a preparation acceptable, and
   the manifest it writes is then refused.
   */
  lemma EmptyReportAccepted(p: Preparation, version: string, signed: bool, sha: string, i: nat, digest: string)
    requires WellFormed(p) && Acceptable(p, version, signed, sha) && IsHexOf(digest, 64)
    requires i < |p.folders["audit-evidence"]|
    ensures var folder := p.folders["audit-evidence"];
            var emptied := folder[i := LocalFile(folder[i].name, digest, 0)];
            var q := p.(folders := p.folders["audit-evidence" := emptied]);
            WellFormed(q) && Acceptable(q, version, signed, sha) && !AllNonEmpty(q.folders)
  {
    var folder := p.folders["audit-evidence"];
    var emptied := folder[i := LocalFile(folder[i].name, digest, 0)];
    var q := p.(folders := p.folders["audit-evidence" := emptied]);
    EmptiedNames(folder, i, digest);
    forall g | g in p.folders
      ensures NamesIn(q.folders[g]) == NamesIn(p.folders[g]) && WellFormedFolder(q.folders[g])
      ensures EvidenceOk(q.folders[g], p.proofs[g], signed, g)
    {
      assert WellFormedFolder(p.folders[g]) && EvidenceOk(p.folders[g], p.proofs[g], signed, g);
    }
    SameNames(p.folders, q.folders, version, signed);
    assert q.folders["audit-evidence"][i].size == 0;
  }

  lemma EmptiedNames(folder: seq<LocalFile>, i: nat, digest: string)
    requires i < |folder| && WellFormedFolder(folder) && IsHexOf(digest, 64)
    ensures var emptied := folder[i := LocalFile(folder[i].name, digest, 0)];
            NamesIn(emptied) == NamesIn(folder) && WellFormedFolder(emptied)
  {
    var emptied := folder[i := LocalFile(folder[i].name, digest, 0)];
    assert forall k | 0 <= k < |folder| :: emptied[k].name == folder[k].name;
  }

  /** The inventory depends on the names alone. */
  lemma SameNames(a: Folders, b: Folders, version: string, signed: bool)
    requires Inventoried(a, version, signed) && a.Keys == b.Keys && forall g | g in a :: NamesIn(b[g]) == NamesIn(a[g])
    ensures Inventoried(b, version, signed)
  {
  }

  lemma GroupsDistinct()
    ensures Distinct(GROUPS)
  {
    assert |GROUPS[0]| == 5 && |GROUPS[1]| == 7 && |GROUPS[2]| == 5 && |GROUPS[3]| == 14;
    assert GROUPS[0][0] != GROUPS[2][0];
  }

  lemma ChecksHoldSigning(signed: bool)
    ensures SIGNING_CHECK in ChecksOf(signed) <==> signed
  {
    assert |SIGNING_CHECK| == 23;
    assert |"source-validation"| == 17 && |"platform-runtime"| == 16
           && |"distribution-backends"| == 21 && |"updater-hashes"| == 14;
    if signed {
      assert ChecksOf(signed)[4] == SIGNING_CHECK;
    }
  }

  /**
   A manifest recorded from accepted folders passes the check exactly when the run identity is
   positive, no file is empty and the version has only characters a file name may have: preparation
   itself rejects neither empty files nor digits of other scripts in the version.
   */
  lemma ManifestValidity(m: Manifest, folders: Folders, repo: string, sha: string, version: string,
                         runId: int, attempt: int)
    requires WellFormedFolders(folders) && Inventoried(folders, version, m.signed)
    requires Records(m.files, folders, folders.Keys)
    requires m.schema == 1 && m.repository == repo && m.commit == sha && m.version == version
    requires m.workflow == WORKFLOW && m.runId == runId && m.runAttempt == attempt
    requires m.checks == ChecksOf(m.signed)
    ensures Validates(m, repo, sha, version) <==> runId > 0 && attempt > 0 && AllNonEmpty(folders) && AllSafe(version)
  {
    ChecksHoldSigning(m.signed);
    forall g | g in GROUPS
      ensures NamesOfGroup(m.files, g) == NamesIn(folders[g])
    {
      NamesRecorded(m.files, folders, g);
    }
    FilesRecorded(m.files, folders, version, m.signed);
    SizesRecorded(m.files, folders);
  }

  /** What a recorded inventory has right by itself, and what depends on the version. */
  lemma FilesRecorded(files: map<string, FileInfo>, folders: Folders, version: string, signed: bool)
    requires WellFormedFolders(folders) && Inventoried(folders, version, signed) && Records(files, folders, folders.Keys)
    ensures forall name | name in files :: files[name].group in GROUPS && IsHexOf(files[name].sha256, 64)
    ensures (forall name | name in files :: SafeFileName(name)) <==> AllSafe(version)
  {
    forall name | name in files
      ensures files[name].group in GROUPS && IsHexOf(files[name].sha256, 64)
      ensures AllSafe(version) ==> SafeFileName(name)
    {
      var g := files[name].group;
      assert name in NamesIn(folders[g]) && g in Elements(GROUPS);
      var i :| 0 <= i < |folders[g]| && folders[g][i].name == name;
      assert folders[g][i].name in files && WellFormedFolder(folders[g]);
      InventorySafeExactly(NamesIn(folders[g]), version, signed, g);
    }
    if !AllSafe(version) {
      assert "linux" == GROUPS[0] && "linux" in Elements(GROUPS);
      NamesRecorded(files, folders, "linux");
      SomeNameUnsafe(files, version, signed);
    }
  }

  lemma SizesRecorded(files: map<string, FileInfo>, folders: Folders)
    requires Records(files, folders, folders.Keys)
    ensures AllNonEmpty(folders) <==> forall name | name in files :: files[name].size > 0
  {
    forall g, i | g in folders && 0 <= i < |folders[g]|
      ensures folders[g][i].name in files && files[folders[g][i].name].size == folders[g][i].size
    {
    }
    forall name | name in files
      ensures exists i :: 0 <= i < |folders[files[name].group]| && folders[files[name].group][i].name == name
    {
      assert name in NamesIn(folders[files[name].group]);
    }
  }

  lemma NamesRecorded(files: map<string, FileInfo>, folders: Folders, g: string)
    requires g in folders && Records(files, folders, folders.Keys)
    ensures NamesOfGroup(files, g) == NamesIn(folders[g])
  {
    forall name | name in NamesIn(folders[g])
      ensures name in NamesOfGroup(files, g)
    {
      var i :| 0 <= i < |folders[g]| && folders[g][i].name == name;
      assert folders[g][i].name in files;
    }
  }

  /** Versions in ASCII digits are safe. */
  lemma VersionIsSafe(v: string)
    requires IsVersion(v)
    ensures AllSafe(v) && |v| >= 5
  {
    var i, j :| 0 <= i < j < |v| && v[i] == '.' && v[j] == '.'
                && Digits(v[..i]) && Digits(v[i + 1..j]) && Digits(v[j + 1..]);
    forall k | 0 <= k < |v|
      ensures IsSafe(v[k])
    {
      if k < i {
        assert v[k] == v[..i][k];
      } else if i < k < j {
        assert v[k] == v[i + 1..j][k - i - 1];
      } else if j < k {
        assert v[k] == v[j + 1..][k - j - 1];
      }
    }
  }

  /** A complete inventory that names the version has safe names throughout exactly when the version is safe. */
  lemma InventorySafeExactly(actual: set<string>, version: string, signed: bool, g: string)
    requires g in GROUPS && InventoryOk(actual, version, signed, g)
    ensures (forall name | name in actual :: SafeFileName(name)) <==> AllSafe(version) || g == "audit-evidence"
  {
    assert GROUPS == ["linux", "windows", "macos", "audit-evidence"];
    if AllSafe(version) || g == "audit-evidence" {
      forall name | name in actual
        ensures SafeFileName(name)
      {
        InventoryIsSafe(version, signed, g, name);
      }
    } else {
      var name := VersionedName(version, g);
      UnsafeVersion(version, g);
      assert name in actual && !SafeFileName(name);
    }
  }

  /** A name that the group must hold. */
  function VersionedName(version: string, g: string): string
  {
    if g == "linux" then "Raticode-" + version + "-amd64.deb"
    else if g == "windows" then "Raticode-Setup-" + version + ".exe"
    else "Raticode-" + version + "-arm64.dmg"
  }

  lemma UnsafeVersion(version: string, g: string)
    requires !AllSafe(version)
    ensures !AllSafe(VersionedName(version, g))
  {
    var k :| 0 <= k < |version| && !IsSafe(version[k]);
    var name, prefix := VersionedName(version, g), if g == "windows" then "Raticode-Setup-" else "Raticode-";
    assert name[|prefix| + k] == version[k];
  }

  lemma SomeNameUnsafe(files: map<string, FileInfo>, version: string, signed: bool)
    requires InventoryOk(NamesOfGroup(files, "linux"), version, signed, "linux") && !AllSafe(version)
    ensures exists name :: name in files && !SafeFileName(name)
  {
    UnsafeVersion(version, "linux");
    assert VersionedName(version, "linux") in NamesOfGroup(files, "linux");
  }

  lemma InventoryIsSafe(version: string, signed: bool, g: string, name: string)
    requires g in GROUPS && name in RequiredFiles(version, signed, g) + OptionalFiles(version, g)
    requires AllSafe(version) || g == "audit-evidence"
    ensures SafeFileName(name)
  {
    assert GROUPS == ["linux", "windows", "macos", "audit-evidence"];
    if g == "linux" {
      LinuxNames(version, name);
    } else if g == "windows" {
      WindowsNames(version, name);
    } else if g == "macos" {
      MacNames(version, name);
    } else {
      AuditNames(name);
    }
  }

  /** A usable literal part of a file name. */
  ghost predicate Part(s: string) { AllSafe(s) }

  /** A whole name that cannot be the manifest's. */
  ghost predicate Whole(s: string) { |s| > 2 && AllSafe(s) && (s[0] != 'c' || |s| < 23) }

  lemma WholeIsAccepted(s: string)
    requires Whole(s)
    ensures SafeFileName(s)
  {
    assert MANIFEST[0] == 'c' && |MANIFEST| == 23;
  }

  lemma Wrapped(prefix: string, version: string, suffix: string)
    requires |prefix| > 2 && prefix[0] != 'c' && Part(prefix) && AllSafe(version) && Part(suffix)
    ensures SafeFileName(prefix + version + suffix)
  {
    WholeIsAccepted(prefix + version + suffix);
  }

  lemma PrefixParts()
    ensures Part("Raticode-")
    ensures Part("Raticode-Setup-")
    ensures Part("raticode-cli_")
    ensures Part("raticode-cli-")
  {
  }

  lemma LinuxParts()
    ensures Part("-x86_64.AppImage")
    ensures Part("-amd64.deb")
    ensures Part("-x86_64.rpm")
    ensures Part("_amd64.deb")
  {
  }

  lemma MoreLinuxParts()
    ensures Part("-1.x86_64.rpm")
    ensures Part("-x86_64.AppImage.blockmap")
  {
  }

  lemma WindowsParts()
    ensures Part(".exe")
    ensures Part(".exe.blockmap")
  {
  }

  lemma MacParts()
    ensures Part("-arm64.dmg")
    ensures Part("-arm64.dmg.blockmap")
    ensures Part("-arm64.zip")
    ensures Part("-arm64.zip.blockmap")
  {
  }

  lemma LinuxWholes()
    ensures Whole("raticode-cli-linux-x64")
    ensures Whole("latest-linux.yml")
    ensures Whole("checksums-linux.txt")
    ensures Whole("package-tests-linux.json")
  {
  }

  lemma WindowsWholes()
    ensures Whole("raticode-cli-windows-x64.exe")
    ensures Whole("latest.yml")
    ensures Whole("checksums-windows.txt")
  {
  }

  lemma MoreWindowsWholes()
    ensures Whole("package-tests-windows.json")
    ensures Whole("signatures-windows.json")
  {
  }

  lemma MacWholes()
    ensures Whole("raticode-cli-macos-arm64")
    ensures Whole("latest-mac.yml")
    ensures Whole("checksums-macos.txt")
  {
  }

  lemma MoreMacWholes()
    ensures Whole("package-tests-macos.json")
    ensures Whole("notarization-macos-dmg.json")
    ensures Whole("notarization-macos-cli.json")
  {
  }

  lemma AuditWholes()
    ensures Whole("npm-audit.json")
    ensures Whole("python-audit.json")
  {
  }

  lemma MoreAuditWholes()
    ensures Whole("npm-lock-inventory.json")
    ensures Whole("python-lock-inventory.txt")
  {
  }

  lemma LinuxNames(version: string, name: string)
    requires AllSafe(version)
    requires name in RequiredFiles(version, true, "linux") + OptionalFiles(version, "linux")
    ensures SafeFileName(name)
  {
    PrefixParts();
    LinuxParts();
    MoreLinuxParts();
    LinuxWholes();
    if name == "Raticode-" + version + "-x86_64.AppImage" {
      Wrapped("Raticode-", version, "-x86_64.AppImage");
    } else if name == "Raticode-" + version + "-amd64.deb" {
      Wrapped("Raticode-", version, "-amd64.deb");
    } else if name == "Raticode-" + version + "-x86_64.rpm" {
      Wrapped("Raticode-", version, "-x86_64.rpm");
    } else if name == "raticode-cli_" + version + "_amd64.deb" {
      Wrapped("raticode-cli_", version, "_amd64.deb");
    } else if name == "raticode-cli-" + version + "-1.x86_64.rpm" {
      Wrapped("raticode-cli-", version, "-1.x86_64.rpm");
    } else if name == "Raticode-" + version + "-x86_64.AppImage.blockmap" {
      Wrapped("Raticode-", version, "-x86_64.AppImage.blockmap");
    } else {
      WholeIsAccepted(name);
    }
  }

  lemma WindowsNames(version: string, name: string)
    requires AllSafe(version)
    requires name in RequiredFiles(version, true, "windows")
    ensures SafeFileName(name)
  {
    PrefixParts();
    WindowsParts();
    WindowsWholes();
    MoreWindowsWholes();
    if name == "Raticode-Setup-" + version + ".exe" {
      Wrapped("Raticode-Setup-", version, ".exe");
    } else if name == "Raticode-Setup-" + version + ".exe.blockmap" {
      Wrapped("Raticode-Setup-", version, ".exe.blockmap");
    } else {
      WholeIsAccepted(name);
    }
  }

  lemma MacNames(version: string, name: string)
    requires AllSafe(version)
    requires name in RequiredFiles(version, true, "macos")
    ensures SafeFileName(name)
  {
    PrefixParts();
    MacParts();
    MacWholes();
    MoreMacWholes();
    if name == "Raticode-" + version + "-arm64.dmg" {
      Wrapped("Raticode-", version, "-arm64.dmg");
    } else if name == "Raticode-" + version + "-arm64.dmg.blockmap" {
      Wrapped("Raticode-", version, "-arm64.dmg.blockmap");
    } else if name == "Raticode-" + version + "-arm64.zip" {
      Wrapped("Raticode-", version, "-arm64.zip");
    } else if name == "Raticode-" + version + "-arm64.zip.blockmap" {
      Wrapped("Raticode-", version, "-arm64.zip.blockmap");
    } else {
      WholeIsAccepted(name);
    }
  }

  lemma AuditNames(name: string)
    requires name in RequiredFiles("", true, "audit-evidence")
    ensures SafeFileName(name)
  {
    AuditWholes();
    MoreAuditWholes();
    WholeIsAccepted(name);
  }
}
