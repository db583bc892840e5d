/**
 * The review step of the new-submission form: the counters over the uploaded files, the
 * colour of the priority badge and the text of a file's status badge.
 */
module SubmissionPreview {
  import opened Seqs
  import opened Text
  import UploadZone

  datatype FileStatus = Uploading | Completed | Error

  datatype UploadedFile = UploadedFile(id: string, name: string, size: nat, fileType: string, progress: int, status: FileStatus)

  function StatusText(st: FileStatus): string {
    match st
    case Uploading => "uploading"
    case Completed => "completed"
    case Error => "error"
  }

  /** `calculateTotalSize`: `reduce` from the left over the sizes, starting at 0. */
  function TotalSize(files: seq<UploadedFile>): (total: nat)
    ensures forall f | f in files :: f.size <= total
    ensures total == 0 <==> forall f | f in files :: f.size == 0
    decreases |files|
  {
    if files == [] then 0
    else
      var init := files[..|files| - 1];
      assert forall f | f in files :: f in init || f == files[|files| - 1];
      TotalSize(init) + files[|files| - 1].size
  }

  /** The sum of the sizes in list order from the front, independent of the fold direction. */
  function SizeSum(files: seq<UploadedFile>): nat {
    if files == [] then 0 else files[0].size + SizeSum(files[1..])
  }

  lemma {:induction false} SizeSumAppend(a: seq<UploadedFile>, b: seq<UploadedFile>)
    ensures SizeSum(a + b) == SizeSum(a) + SizeSum(b)
    decreases |a|
  {
    if a == [] {
      assert a + b == b;
    } else {
      assert (a + b)[1..] == a[1..] + b;
      SizeSumAppend(a[1..], b);
    }
  }

  /** The left fold and the sum from the front agree: the total is the sum of the sizes. */
  lemma {:induction false} TotalSizeIsSum(files: seq<UploadedFile>)
    ensures TotalSize(files) == SizeSum(files)
    decreases |files|
  {
    if files != [] {
      var init := files[..|files| - 1];
      TotalSizeIsSum(init);
      assert files == init + [files[|files| - 1]];
      SizeSumAppend(init, [files[|files| - 1]]);
    }
  }

  /** Adding a file adds its size to the total. */
  lemma TotalSizeAppend(a: seq<UploadedFile>, b: seq<UploadedFile>)
    ensures TotalSize(a + b) == TotalSize(a) + TotalSize(b)
  {
    TotalSizeIsSum(a + b);
    TotalSizeIsSum(a);
    TotalSizeIsSum(b);
    SizeSumAppend(a, b);
  }

  function IsCompleted(f: UploadedFile): bool {
    f.status == Completed
  }

  /** `getCompletedFiles`: the length of the list of completed files. */
  function CompletedFiles(files: seq<UploadedFile>): (n: nat)
    ensures n <= |files|
    ensures n == |files| <==> forall i | 0 <= i < |files| :: files[i].status == Completed
    ensures n == 0 <==> forall i | 0 <= i < |files| :: files[i].status != Completed
  {
    |Filter(files, IsCompleted)|
  }

  /** The "n of m files uploaded" line: one more completed file raises the count by one. */
  lemma CompletedFilesAppend(files: seq<UploadedFile>, f: UploadedFile)
    ensures CompletedFiles(files + [f]) == CompletedFiles(files) + (if f.status == Completed then 1 else 0)
  {
    FilterAppend(files, [f], IsCompleted);
    if f.status == Completed {
      assert Filter([f], IsCompleted) == [f];
    } else {
      assert Filter([f], IsCompleted) == [];
    }
  }

  const HIGH_COLOR := "bg-red-100 text-red-800"
  const MEDIUM_COLOR := "bg-yellow-100 text-yellow-800"
  const LOW_COLOR := "bg-green-100 text-green-800"
  const DEFAULT_COLOR := "bg-gray-100 text-gray-800"

  /** `getPriorityColor`: high, medium and low have their own colours; anything else is gray. */
  function PriorityColor(priority: string): (color: string)
    ensures color == HIGH_COLOR <==> priority == "high"
    ensures color == MEDIUM_COLOR <==> priority == "medium"
    ensures color == LOW_COLOR <==> priority == "low"
    ensures color == DEFAULT_COLOR <==> priority !in {"high", "medium", "low"}
  {
    match priority
    case "high" => HIGH_COLOR
    case "medium" => MEDIUM_COLOR
    case "low" => LOW_COLOR
    case _ => DEFAULT_COLOR
  }

  /** The status badge: the status with its first letter upper-cased and the rest unchanged. */
  function StatusBadge(st: FileStatus): (badge: string)
    ensures |badge| == |StatusText(st)| && badge[1..] == StatusText(st)[1..]
    ensures badge[0] == Upper(StatusText(st)[0]) && 'A' <= badge[0] <= 'Z'
  {
    CapitalizePointwise(StatusText(st));
    Capitalize(StatusText(st))
  }

  /**
   * The unit of the total size, shown with the same `formatFileSize` as the drop zone:
   * "Bytes" up to 1023 bytes, and "undefined" from 1024^4 bytes on.
   */
  lemma TotalSizeUnit(files: seq<UploadedFile>)
    ensures TotalSize(files) < 1024 ==> UploadZone.SizeUnit(TotalSize(files)) == "Bytes"
    ensures UploadZone.SizeUnit(TotalSize(files)) == "undefined" <==> SizeSum(files) >= 1024 * 1024 * 1024 * 1024
  {
    TotalSizeIsSum(files);
    assert UploadZone.Pow1024(4) == 1024 * 1024 * 1024 * 1024;
  }
}
