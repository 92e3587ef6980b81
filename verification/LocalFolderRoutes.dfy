/** The grant store behind its POST and DELETE routes: every set it ever holds is layered. */
module LocalFolderRoutesObject {
  import opened Wrappers
  import opened FolderGrants

  datatype Outcome =
    | Created(folder: Folder)
    | NeedsConfirmation
    | AlreadyExists
    | Overlapping(overlap: Overlap)
    | OutOfIds

  function Decimal(n: nat): string {
    if n < 10 then [(0x30 + n) as char] else Decimal(n / 10) + [(0x30 + n % 10) as char]
  }

  /** The k-th id tried for a folder: its base, then base-2, base-3 and so on. */
  function Candidate(base: string, k: nat): string {
    if k < 2 then base else base + "-" + Decimal(k)
  }

  const LAST_SUFFIX: nat := 9999

  predicate IsProtectedPath(dataRoot: Option<HostPath>, candidate: HostPath) {
    dataRoot.Some? && (PathIsWithin(dataRoot.value, candidate) || PathIsWithin(candidate, dataRoot.value))
  }

  /** Protected is what lies in the data root and what contains it. */
  lemma ProtectedExactly(dataRoot: Option<HostPath>, candidate: HostPath)
    requires Canonical(candidate) && (dataRoot.Some? ==> Canonical(dataRoot.value))
    ensures IsProtectedPath(dataRoot, candidate) <==>
      dataRoot.Some? && (dataRoot.value <= candidate || candidate <= dataRoot.value)
  {
    if dataRoot.Some? {
      WithinIsPrefix(dataRoot.value, candidate);
      WithinIsPrefix(candidate, dataRoot.value);
    }
  }

  function Read(digits: string): int {
    if digits == "" then 0 else Read(digits[..|digits| - 1]) * 10 + (digits[|digits| - 1] as int - 0x30)
  }

  lemma {:induction false} DecimalReads(n: nat)
    ensures Decimal(n) != "" && Read(Decimal(n)) == n
  {
    if n < 10 {
      assert Read("") == 0;
    } else {
      DecimalReads(n / 10);
      assert Decimal(n)[..|Decimal(n)| - 1] == Decimal(n / 10);
    }
  }

  /** No two candidates are the same, so a store runs out of ids only when all of them are taken. */
  lemma CandidatesDiffer(base: string, j: nat, k: nat)
    requires 1 <= j < k
    ensures Candidate(base, j) != Candidate(base, k)
  {
    if j == 1 {
      assert |Candidate(base, k)| > |base|;
    } else {
      DecimalReads(j);
      DecimalReads(k);
      var stem := base + "-";
      assert Candidate(base, j)[|stem|..] == Decimal(j) && Candidate(base, k)[|stem|..] == Decimal(k);
    }
  }

  class LocalFolderStore {
    var folders: seq<Folder>

    ghost predicate Valid()
      reads this
    {
      Layered(folders)
    }

    constructor ()
      ensures Valid() && folders == []
    {
      folders := [];
    }

    /** The first candidate not taken, if any. */
    method UniqueId(base: string) returns (id: Option<string>)
      ensures id.None? <==> forall k :: 1 <= k <= LAST_SUFFIX ==> HasId(folders, Candidate(base, k))
      ensures id.Some? ==> !HasId(folders, id.value)
      ensures id.Some? ==> exists k ::
        1 <= k <= LAST_SUFFIX && id.value == Candidate(base, k)
        && forall j :: 1 <= j < k ==> HasId(folders, Candidate(base, j))
    {
      if !HasId(folders, base) {
        assert Candidate(base, 1) == base;
        return Some(base);
      }
      for suffix := 2 to LAST_SUFFIX + 1
        invariant forall k :: 1 <= k < suffix ==> HasId(folders, Candidate(base, k))
      {
        var candidate := Candidate(base, suffix);
        if !HasId(folders, candidate) {
          return Some(candidate);
        }
      }
      return None;
    }

    /** Grants a canonical directory, or says why not; a refusal changes nothing. */
    method Post(
      path: HostPath, readOnly: bool, base: string, dataRoot: Option<HostPath>, acknowledged: bool)
      returns (outcome: Outcome)
      requires Valid() && Canonical(path)
      modifies this
      ensures Valid()
      ensures outcome.Created? <==>
        && (!IsProtectedPath(dataRoot, path) || acknowledged)
        && Admitted(old(folders), path, readOnly)
        && exists k :: 1 <= k <= LAST_SUFFIX && !HasId(old(folders), Candidate(base, k))
      ensures outcome.Created? ==>
        && outcome.folder.path == path && outcome.folder.readOnly == readOnly && !HasId(old(folders), outcome.folder.id)
        && folders == old(folders) + [outcome.folder]
      ensures !outcome.Created? ==> folders == old(folders)
    {
      if IsProtectedPath(dataRoot, path) && !acknowledged {
        return NeedsConfirmation;
      }
      if HasPath(folders, path) {
        return AlreadyExists;
      }
      var error := OverlappingGrantError(folders, path, readOnly);
      if error.Some? {
        return Overlapping(error.value);
      }
      var id := UniqueId(base);
      if id.None? {
        return OutOfIds;
      }
      var folder := Folder(id.value, path, readOnly);
      AdmissionIsExact(folders, folder);
      folders := folders + [folder];
      return Created(folder);
    }

    method Delete(id: string) returns (deleted: bool)
      requires Valid()
      modifies this
      ensures Valid() && folders == Without(old(folders), id)
      ensures deleted <==> HasId(old(folders), id)
    {
      deleted := HasId(folders, id);
      DeleteKeepsLayers(folders, id);
      folders := Without(folders, id);
    }
  }
}
