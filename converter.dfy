/**
 * The upload format gate of utils/converter.py: files whose extension is
 * not an accepted one are written to a temporary file, run through ffmpeg
 * and replaced by its output, falling back to the uploaded bytes when a
 * step raises; the temporary file is always removed.
 */
module Converter {
  import opened Wrappers
  import Python

  type Bytes = seq<bv8>

  /** The parts of a Streamlit upload the converter reads. */
  datatype UploadedFile = UploadedFile(name: string, fileId: string, data: Bytes)

  /** `filename.split(".")[-1]`: the text after the last '.', or the whole name. */
  function Extension(filename: string): (ext: string)
    ensures '.' !in ext
    ensures '.' !in filename ==> ext == filename
    ensures '.' in filename ==> |ext| < |filename| && filename == filename[..|filename| - |ext| - 1] + "." + ext
  {
    var ext := Python.AfterLast(filename, '.');
    if '.' !in filename then
      Python.AfterLastNoSeparator(filename, '.');
      ext
    else
      assert filename == filename[..|filename| - |ext| - 1] + [filename[|filename| - |ext| - 1]] + filename[|filename| - |ext|..];
      ext
  }

  /** POSIX `os.path.join(a, b)`: an absolute `b` replaces `a`; otherwise a '/' is inserted unless `a` is empty or already ends in one. */
  function PathJoin(a: string, b: string): (p: string)
    ensures |b| > 0 && b[0] == '/' ==> p == b
    ensures !(|b| > 0 && b[0] == '/') ==> |p| >= |a| + |b| && p[|p| - |b|..] == b && p[..|a|] == a
  {
    if |b| > 0 && b[0] == '/' then b
    else if a == [] || a[|a| - 1] == '/' then a + b
    else a + "/" + b
  }

  class AudioConverter {
    const validExtensions: seq<string>
    const convertTo: string
    const ac: int
    const rootDir: string

    constructor (validExtensions: seq<string>, convertTo: string, ac: int, rootDir: string)
      ensures this.validExtensions == validExtensions && this.convertTo == convertTo
      ensures this.ac == ac && this.rootDir == rootDir
    {
      this.validExtensions := validExtensions;
      this.convertTo := convertTo;
      this.ac := ac;
      this.rootDir := rootDir;
    }

    /** `check_extension`: the filename when its extension is not an accepted one (compared exactly, case included), None otherwise. */
    function CheckExtension(filename: string): (r: Option<string>)
      ensures r.Some? <==> Extension(filename) !in validExtensions
      ensures r.Some? ==> r.value == filename
    {
      if Extension(filename) !in validExtensions then Some(filename) else None
    }

    /** The truth test `__call__` applies to `check_extension`'s result: the empty name is falsy. */
    predicate NeedsConversion(filename: string)
    {
      CheckExtension(filename).Some? && CheckExtension(filename).value != ""
    }

    /** `define_location`: `root_dir` joined with "<file_id>.<extension>". */
    function DefineLocation(fileId: string, extension: string): (p: string)
      ensures var leaf := fileId + "." + extension;
        |p| >= |leaf| && p[|p| - |leaf|..] == leaf
      ensures |fileId| > 0 && fileId[0] != '/' && |rootDir| > 0 && rootDir[|rootDir| - 1] != '/' ==>
        p == rootDir + "/" + fileId + "." + extension
    {
      PathJoin(rootDir, fileId + "." + extension)
    }

    /**
     * `__call__`. `writeSucceeds` says whether writing the temporary file
     * raises, and `ffmpeg(format, input)` is the subprocess's output, None
     * when starting it raises. Without conversion the upload's bytes come
     * back and the disk is untouched; with it, the temporary file is gone
     * afterwards and the result is ffmpeg's output when both steps went
     * through, the upload's bytes otherwise.
     */
    method Call(source: UploadedFile, disk: Disk, writeSucceeds: bool, ffmpeg: (string, Bytes) -> Option<Bytes>)
      returns (out: Bytes)
      modifies disk
      ensures !NeedsConversion(source.name) ==> out == source.data && disk.files == old(disk.files)
      ensures NeedsConversion(source.name) ==>
        disk.files == old(disk.files) - {DefineLocation(source.fileId, Extension(source.name))}
      ensures NeedsConversion(source.name) && writeSucceeds && ffmpeg(convertTo, source.data).Some? ==>
        out == ffmpeg(convertTo, source.data).value
      ensures !(writeSucceeds && ffmpeg(convertTo, source.data).Some?) ==> out == source.data
    {
      out := source.data;
      if NeedsConversion(source.name) {
        out := ConvertThroughFile(DefineLocation(source.fileId, Extension(source.name)), source.data, disk, writeSucceeds, ffmpeg);
      }
    }

    /**
     * The conversion branch of `__call__`: the `try` body on `inPath`, then
     * the `finally` clause; the upload's bytes come back when the body raised.
     */
    method ConvertThroughFile(inPath: string, data: Bytes, disk: Disk, writeSucceeds: bool,
                              ffmpeg: (string, Bytes) -> Option<Bytes>)
      returns (out: Bytes)
      modifies disk
      ensures disk.files == old(disk.files) - {inPath}
      ensures out == if writeSucceeds && ffmpeg(convertTo, data).Some? then ffmpeg(convertTo, data).value else data
    {
      ghost var before := disk.files;
      var converted, raised := WriteAndConvert(inPath, data, disk, writeSucceeds, ffmpeg);
      RemoveIfExists(disk, inPath);
      assert disk.files == before - {inPath} by {
        assert before[inPath := data] - {inPath} == before - {inPath};
      }
      out := if raised then data else converted;
    }

    /**
     * The `try` body of `__call__`: write the upload to `inPath`, then run
     * ffmpeg on the written file; `raised` says whether either step raised.
     */
    method WriteAndConvert(inPath: string, data: Bytes, disk: Disk, writeSucceeds: bool,
                           ffmpeg: (string, Bytes) -> Option<Bytes>)
      returns (converted: Bytes, raised: bool)
      modifies disk
      ensures disk.files == if writeSucceeds then old(disk.files)[inPath := data] else old(disk.files)
      ensures raised <==> !(writeSucceeds && ffmpeg(convertTo, data).Some?)
      ensures !raised ==> converted == ffmpeg(convertTo, data).value
    {
      converted, raised := data, true;
      if writeSucceeds {
        disk.Write(inPath, data);
        var out := ffmpeg(convertTo, disk.files[inPath]);
        if out.Some? {
          converted, raised := out.value, false;
        }
      }
    }
  }

  /** The `finally` clause of `__call__`: remove the file at `path` if there is one. */
  method RemoveIfExists(disk: Disk, path: string)
    modifies disk
    ensures disk.files == old(disk.files) - {path}
  {
    var present := disk.Exists(path);
    if present {
      disk.Remove(path);
    } else {
      assert disk.files == disk.files - {path};
    }
  }

  /** The file system, as a map from path to contents. */
  class Disk {
    var files: map<string, Bytes>

    constructor (files: map<string, Bytes>)
      ensures this.files == files
    {
      this.files := files;
    }

    method Write(path: string, data: Bytes)
      modifies this
      ensures files == old(files)[path := data]
    {
      files := files[path := data];
    }

    method Exists(path: string) returns (b: bool)
      ensures b <==> path in files
    {
      b := path in files;
    }

    method Remove(path: string)
      requires path in files
      modifies this
      ensures files == old(files) - {path}
    {
      files := files - {path};
    }
  }

  /** An accepted extension never triggers conversion; an unaccepted one does unless the name is empty. */
  lemma NeedsConversionIff(c: AudioConverter, filename: string)
    ensures c.NeedsConversion(filename) <==> filename != "" && Extension(filename) !in c.validExtensions
  {
  }

  /** Extension matching is exact: an upper-case extension is not the lower-case one. */
  lemma ExtensionCaseSensitive(c: AudioConverter)
    requires c.validExtensions == ["wav"]
    ensures Extension("heart.WAV") == "WAV"
    ensures c.NeedsConversion("heart.WAV") && !c.NeedsConversion("heart.wav")
  {
    assert "heart.WAV" == "heart" + "." + "WAV";
    assert "heart.wav" == "heart" + "." + "wav";
    ExtensionOfSuffix("heart", "WAV");
    ExtensionOfSuffix("heart", "wav");
  }

  /** The extension of "<stem>.<ext>" is `ext` when `ext` has no dot. */
  lemma ExtensionOfSuffix(stem: string, ext: string)
    requires '.' !in ext
    ensures Extension(stem + "." + ext) == ext
  {
    var f := stem + "." + ext;
    var e := Extension(f);
    assert f[|stem|] == '.';
    assert f[|stem| + 1..] == ext;
  }
}
