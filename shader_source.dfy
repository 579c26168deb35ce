/**
  The clean-up `load_shader_from_file` applies to a shader file before handing
  it to the compiler as a NUL-terminated string: a write pointer walks the
  buffer up to the first NUL or non-ASCII byte and the string is cut there.
*/
module ShaderSource {
  import opened CTypes

  /** A byte the scan stops at: NUL, or outside 7-bit ASCII. The scan passes exactly the bytes 1..127. */
  predicate IsStop(b: byte)
    ensures !IsStop(b) <==> 1 <= b <= 127
  {
    b == 0 || b > 127
  }

  predicate HasStop(s: seq<byte>)
  {
    exists i :: 0 <= i < |s| && IsStop(s[i])
  }

  /** The index at which the scan stops. */
  function FirstStop(s: seq<byte>): (k: nat)
    requires HasStop(s)
    ensures k < |s| && IsStop(s[k])
    ensures forall j :: 0 <= j < k ==> 1 <= s[j] <= 127
  {
    if IsStop(s[0]) then 0
    else
      var i :| 0 <= i < |s| && IsStop(s[i]);
      assert s[1..][i - 1] == s[i];
      1 + FirstStop(s[1..])
  }

  /** The buffer after the clean-up: the stop byte becomes NUL. */
  function Scrubbed(s: seq<byte>): (r: seq<byte>)
    requires HasStop(s)
    ensures |r| == |s| && r[FirstStop(s)] == 0
    ensures forall j :: 0 <= j < |s| && j != FirstStop(s) ==> r[j] == s[j]
  {
    var k := FirstStop(s);
    if s[k] != 0 then s[k := 0] else s
  }

  /** What a reader of a NUL-terminated string sees: the bytes before the first NUL. */
  function CString(s: seq<byte>): (r: seq<byte>)
    ensures r <= s
    ensures forall j :: 0 <= j < |r| ==> r[j] != 0
  {
    if s == [] || s[0] == 0 then [] else [s[0]] + CString(s[1..])
  }

  lemma {:induction false} CStringEndsAtNul(s: seq<byte>, k: nat)
    requires k < |s| && s[k] == 0
    requires forall j :: 0 <= j < k ==> s[j] != 0
    ensures CString(s) == s[..k]
  {
    if k > 0 {
      CStringEndsAtNul(s[1..], k - 1);
      assert s[..k] == [s[0]] + s[1..][..k - 1];
    }
  }

  lemma {:induction false} CStringExtends(s: seq<byte>, k: nat)
    requires k <= |s|
    requires forall j :: 0 <= j < k ==> s[j] != 0
    ensures s[..k] <= CString(s)
  {
    if k > 0 {
      CStringExtends(s[1..], k - 1);
      assert s[..k] == [s[0]] + s[1..][..k - 1];
    }
  }

  lemma FirstStopUnique(s: seq<byte>, k: nat)
    requires k < |s| && IsStop(s[k])
    requires forall j :: 0 <= j < k ==> !IsStop(s[j])
    ensures HasStop(s) && FirstStop(s) == k
  {
  }

  /**
    The clean-up changes at most the stop byte: every byte before it is
    ASCII (1..127) and kept, the stop byte becomes NUL (no write at all when it
    already was one), and no byte after it is touched.
  */
  lemma ScrubbedChangesOnlyStop(s: seq<byte>)
    requires HasStop(s)
    ensures var r, k := Scrubbed(s), FirstStop(s);
      |r| == |s| && r[..k] == s[..k] && r[k] == 0 && r[k + 1..] == s[k + 1..] &&
      (s[k] == 0 ==> r == s)
  {
  }

  /**
    The string the compiler is given is the longest ASCII prefix of the
    buffer, and it is a prefix of the string the buffer held before.
  */
  lemma ScrubbedStringIsAsciiPrefix(s: seq<byte>)
    requires HasStop(s)
    ensures CString(Scrubbed(s)) == s[..FirstStop(s)]
    ensures CString(Scrubbed(s)) <= CString(s)
    ensures forall j :: 0 <= j < |CString(Scrubbed(s))| ==> 1 <= CString(Scrubbed(s))[j] <= 127
  {
    var k := FirstStop(s);
    CStringEndsAtNul(Scrubbed(s), k);
    CStringExtends(s, k);
  }

  /** Cleaning an already cleaned buffer changes nothing. */
  lemma ScrubIdempotent(s: seq<byte>)
    requires HasStop(s)
    ensures HasStop(Scrubbed(s))
    ensures Scrubbed(Scrubbed(s)) == Scrubbed(s)
  {
    FirstStopUnique(Scrubbed(s), FirstStop(s));
  }

  /**
    The "remove any non-ascii characters" block. It reads `*write` with no
    bound, so the buffer must hold a stop byte for the scan to stay inside it.
  */
  method RemoveNonAscii(code: array<byte>)
    requires HasStop(code[..])
    modifies code
    ensures code[..] == Scrubbed(old(code[..]))
  {
    var write := 0;
    while code[write] != 0 && code[write] <= 127
      invariant write <= FirstStop(code[..])
      decreases FirstStop(code[..]) - write
    {
      write := write + 1;
    }
    if code[write] != 0 {
      code[write] := 0;
    }
  }

  /**
    Where the scan, started at `write`, stops in a buffer of
    |code| bytes; |code| means it went on to read the byte after the buffer.
  */
  function ScanEnd(code: seq<byte>, write: nat): (k: nat)
    requires write <= |code|
    ensures write <= k <= |code|
    decreases |code| - write
  {
    if write == |code| || IsStop(code[write]) then write else ScanEnd(code, write + 1)
  }

  /** Inside a buffer that holds a stop byte the scan ends at the first one. */
  lemma {:induction false} ScanEndIsFirstStop(code: seq<byte>, write: nat)
    requires HasStop(code) && write <= FirstStop(code)
    ensures ScanEnd(code, write) == FirstStop(code)
    decreases FirstStop(code) - write
  {
    if write < FirstStop(code) {
      ScanEndIsFirstStop(code, write + 1);
    }
  }

  /** The file read: `malloc(size)` and `fread` of the whole file; no terminator is added. */
  function ReadAsWritten(file: seq<byte>): (code: seq<byte>)
    ensures |code| == |file|
  {
    file
  }

  /**
    As written, a shader file of plain ASCII without a NUL byte (the usual
    case, e.g. the bytes of "void main(){}") leaves no stop byte in the
    buffer, and the scan reads `code[size]`, one past the allocation.
  */
  lemma AsWrittenScanOverruns(file: seq<byte>)
    requires forall j :: 0 <= j < |file| ==> 1 <= file[j] <= 127
    ensures !HasStop(ReadAsWritten(file))
    ensures ScanEnd(ReadAsWritten(file), 0) == |file|
  {
    ScanEndPastAscii(file, 0);
  }

  lemma {:induction false} ScanEndPastAscii(code: seq<byte>, write: nat)
    requires write <= |code|
    requires forall j :: write <= j < |code| ==> !IsStop(code[j])
    ensures ScanEnd(code, write) == |code|
    decreases |code| - write
  {
    if write < |code| {
      ScanEndPastAscii(code, write + 1);
    }
  }

  /** "void main(){}" as a concrete file that overruns. */
  lemma AsWrittenOverrunExample()
    ensures var file: seq<byte> := [118, 111, 105, 100, 32, 109, 97, 105, 110, 40, 41, 123, 125];
      ScanEnd(ReadAsWritten(file), 0) == |file|
  {
    var file: seq<byte> := [118, 111, 105, 100, 32, 109, 97, 105, 110, 40, 41, 123, 125];
    AsWrittenScanOverruns(file);
  }

  /** The evidently intended read: `malloc(size + 1)` with `code[size] = '\0'`. */
  function ReadTerminated(file: seq<byte>): (code: seq<byte>)
    ensures |code| == |file| + 1 && code[..|file|] == file && code[|file|] == 0
    ensures HasStop(code)
  {
    file + [0]
  }

  /**
    With the terminator the scan always stops inside the buffer, and the
    string compiled is the longest prefix of the file made of ASCII bytes.
  */
  lemma TerminatedScanInBounds(file: seq<byte>)
    ensures HasStop(ReadTerminated(file))
    ensures ScanEnd(ReadTerminated(file), 0) == FirstStop(ReadTerminated(file)) <= |file|
    ensures var k := FirstStop(ReadTerminated(file));
      CString(Scrubbed(ReadTerminated(file))) == file[..k] &&
      (forall j :: 0 <= j < k ==> 1 <= file[j] <= 127) &&
      (k < |file| ==> IsStop(file[k]))
  {
    var code := ReadTerminated(file);
    assert IsStop(code[|file|]);
    ScanEndIsFirstStop(code, 0);
    ScrubbedStringIsAsciiPrefix(code);
    assert code[..FirstStop(code)] == file[..FirstStop(code)];
  }

  /** The read and the clean-up, with the corrected read: copy, terminate, clean up. */
  method LoadShaderCode(file: seq<byte>) returns (code: array<byte>)
    ensures fresh(code)
    ensures code[..] == Scrubbed(ReadTerminated(file))
  {
    code := new byte[|file| + 1](i requires 0 <= i <= |file| => if i < |file| then file[i] else 0);
    assert code[..] == ReadTerminated(file);
    TerminatedScanInBounds(file);
    RemoveNonAscii(code);
  }
}
