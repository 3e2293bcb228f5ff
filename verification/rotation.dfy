/** The rotating file writer's parameters: the file-name pattern, the
    rotation period and the maximum age, durations in nanoseconds as Go's
    time.Duration counts them. */
module Rotation {
  import opened GoStrings

  const Hour: int := 3_600_000_000_000

  /** The strftime pattern appended to the file name: year-month-day_hour. */
  const TimePattern: string := "%Y-%m-%d_%H"

  /** time.Hour*1: a new file begins at every hour boundary. */
  const RotationTime: int := Hour * 1

  /** 7*24*365*3*time.Hour: files older than this are deleted. */
  const MaxAge: int := 7 * 24 * 365 * 3 * Hour

  datatype RotationWriter = RotationWriter(pattern: string, rotationTime: int, maxAge: int)

  /** The file name before the directory is put in front: the base name
      followed by ".log." and TimePattern, which adds no path separator. */
  function LogFileName(baseName: string): (r: string)
    ensures baseName <= r && |r| > |baseName|
    ensures '/' in r <==> '/' in baseName
  {
    var suffix := ".log." + TimePattern;
    assert forall i :: 0 <= i < |suffix| ==> suffix[i] != '/';
    baseName + suffix
  }

  /** directory + LogFileName(baseName), with no separator added between
      directory and base name: the file the pattern names is the directory's
      last segment fused with the file name. */
  function LogFilePattern(directory: string, baseName: string): (r: string)
    ensures directory <= r && |r| == |directory| + |LogFileName(baseName)|
    ensures '/' !in baseName ==> Base(r) == LastSegment(directory) + LogFileName(baseName)
  {
    var name := LogFileName(baseName);
    assert '/' !in baseName ==> Base(directory + name) == LastSegment(directory) + name by {
      if '/' !in baseName {
        BaseOfAppend(directory, name);
      }
    }
    directory + name
  }

  /** The rotation period is one hour; the maximum age is 183960 hours, that
      is 21 years of 365 days (seven times three years), and fits in a
      time.Duration. */
  lemma RetentionWindow()
    ensures RotationTime == Hour
    ensures MaxAge == 183960 * Hour
    ensures MaxAge / (365 * 24 * Hour) == 21 && MaxAge % (365 * 24 * Hour) == 0
    ensures MaxAge < 0x8000_0000_0000_0000
  {
  }

  /** Only a directory that ends in '/' (or none at all) puts the files
      inside it; otherwise its last segment becomes part of every file name. */
  lemma DirectoryNeedsTrailingSlash(directory: string, baseName: string)
    requires '/' !in baseName
    ensures Base(LogFilePattern(directory, baseName)) == LogFileName(baseName)
      <==> directory == [] || directory[|directory| - 1] == '/'
  {
    var s := LastSegment(directory);
    if directory != [] && directory[|directory| - 1] != '/' {
      assert s != [];
      assert |s + LogFileName(baseName)| > |LogFileName(baseName)|;
    }
  }
}
