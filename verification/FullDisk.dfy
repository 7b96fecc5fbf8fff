/** A write that runs out of room: the file is damaged for good. */
module FullDisk {
  import opened CText
  import opened JsonText
  import opened StateFile
  import opened StateJobs
  import opened StateRuns
  import opened Grammar

  /** Whatever any of the three writers was doing, a disk without room for its text leaves a file that no
      longer reads, and on which no writer ever writes again. */
  lemma {:induction false} FullDiskDamages(job: Job, text: CString, disk: Disk)
    requires GoodText(text) && Apply(job, text).Some?
    requires disk.readable && disk.writable && disk.room < |Apply(job, text).value|
    ensures var saved := Save(disk, text, Apply(job, text));
            !saved.ok && Parse(saved.content) == None && forall other :: Apply(other, saved.content) == None
  {
    ApplyIsTree(job, text, Top(text));
    BrokenOffFails(ApplyTree(job, Top(text)).value, disk.room);
    forall other ensures Apply(other, Save(disk, text, Apply(job, text)).content) == None {
      NothingWritten(other, Save(disk, text, Apply(job, text)).content);
    }
  }

  /** No writer writes anything for a text that does not read. */
  lemma {:induction false} NothingWritten(job: Job, text: CString)
    requires Parse(text) == None
    ensures Apply(job, text) == None
  {
  }

  /** When the update cannot be made or the file cannot be opened, the file stays as it is; with room it
      holds the new text. */
  lemma SaveOutcomes(disk: Disk, before: CString, after: Option<CString>)
    ensures after == None ==> Save(disk, before, after) == Saved(before, false)
    ensures !disk.readable || !disk.writable ==> Save(disk, before, after) == Saved(before, false)
    ensures disk.readable && disk.writable && after.Some? && |after.value| <= disk.room ==>
              Save(disk, before, after) == Saved(after.value, true)
    ensures disk.readable && disk.writable && after.Some? && |after.value| > disk.room ==>
              Save(disk, before, after) == Saved(after.value[..disk.room], false)
  {
  }
}
