/**
 * filter_whitespace (src/common.c): copy an expression without its whitespace into a
 * fresh NUL-terminated buffer.
 *
 * FilterWhitespaceAsWritten follows the code line by line: its test reads the zeroed
 * scratch buffer instead of the input, so nothing is filtered, and the result block is
 * blockSize one byte short of what is then written. FilterWhitespace is the corrected
 * routine: it tests the input character and allocates room for the terminator.
 */
module Common {
  import opened CType

  /** The characters of s that are not whitespace, in their order. */
  function RemoveWhitespace(s: string): (r: string)
    ensures |r| <= |s|
    ensures forall k :: 0 <= k < |r| ==> !IsSpace(r[k])
  {
    if s == [] then []
    else RemoveWhitespace(s[..|s| - 1]) + (if IsSpace(s[|s| - 1]) then [] else [s[|s| - 1]])
  }

  /** Removing whitespace character by character from the front. */
  lemma {:induction false} RemoveWhitespaceCons(c: char, t: string)
    ensures RemoveWhitespace([c] + t) == (if IsSpace(c) then [] else [c]) + RemoveWhitespace(t)
    decreases |t|
  {
    if t != [] {
      var init := t[..|t| - 1];
      assert ([c] + t)[..|[c] + t| - 1] == [c] + init;
      RemoveWhitespaceCons(c, init);
    }
  }

  /** A string without whitespace is left as it is; so the filter is idempotent. */
  lemma {:induction false} RemoveWhitespaceFixpoint(s: string)
    requires forall k :: 0 <= k < |s| ==> !IsSpace(s[k])
    ensures RemoveWhitespace(s) == s
    decreases |s|
  {
    if s != [] {
      RemoveWhitespaceFixpoint(s[..|s| - 1]);
    }
  }

  lemma RemoveWhitespaceIdempotent(s: string)
    ensures RemoveWhitespace(RemoveWhitespace(s)) == RemoveWhitespace(s)
  {
    RemoveWhitespaceFixpoint(RemoveWhitespace(s));
  }

  /** Appending the non-space characters of a string keeps their count and their order. */
  lemma {:induction false} RemoveWhitespaceAppend(s: string, t: string)
    ensures RemoveWhitespace(s + t) == RemoveWhitespace(s) + RemoveWhitespace(t)
    decreases |t|
  {
    if t == [] {
      assert s + t == s;
    } else {
      var init := t[..|t| - 1];
      assert (s + t)[..|s + t| - 1] == s + init;
      RemoveWhitespaceAppend(s, init);
    }
  }

  /** strlen over a buffer that holds a NUL: the length of the C string it starts with. */
  method StrLen(buffer: array<char>) returns (n: nat)
    requires '\0' in buffer[..]
    ensures n < buffer.Length && buffer[..n] == CStr(buffer[..])
  {
    n := 0;
    while buffer[n] != '\0'
      invariant n < buffer.Length
      invariant '\0' !in buffer[..n]
      invariant '\0' in buffer[n..]
      decreases buffer.Length - n
    {
      assert buffer[n..] == [buffer[n]] + buffer[n + 1..];
      n := n + 1;
    }
    CStrPrefix(buffer[..], n);
  }

  lemma {:induction false} CStrPrefix(s: string, n: nat)
    requires n < |s| && s[n] == '\0' && '\0' !in s[..n]
    ensures CStr(s) == s[..n]
    decreases n
  {
    if n > 0 {
      assert s[1..][..n - 1] == s[1..n];
      CStrPrefix(s[1..], n - 1);
    }
  }

  /**
   * filter_whitespace as written. The scratch buffer is zeroed and the test reads it at
   * index i, which no earlier iteration has written, so every input character is copied.
   * The result block gets strlen bytes but strlen + 1 bytes are written into it.
   */
  method FilterWhitespaceAsWritten(input: string, len: nat) returns (result: string, blockSize: nat, written: nat)
    requires len <= |input|
    ensures result == CStr(input[..len])
    ensures blockSize == |result| && written == blockSize + 1
  {
    var finput := new char[len + 1](_ => '\0');
    var j := 0;
    for i := 0 to len
      invariant j == i
      invariant finput[..i] == input[..i]
      invariant forall k :: i <= k <= len ==> finput[k] == '\0'
    {
      if !IsSpace(finput[i]) {
        finput[j] := input[i];
        j := j + 1;
      }
    }
    assert finput[len] == '\0' && finput[..] == input[..len] + ['\0'];
    var flen := StrLen(finput);
    CStrTerminator(input[..len]);
    blockSize := flen;
    written := flen + 1;
    result := finput[..flen];
  }

  lemma {:induction false} CStrTerminator(s: string)
    ensures CStr(s + ['\0']) == CStr(s)
  {
    if s != [] {
      assert (s + ['\0'])[1..] == s[1..] + ['\0'];
      CStrTerminator(s[1..]);
    }
  }

  /** The as-written routine keeps whitespace: " 1" comes back as " 1", not "1". */
  lemma AsWrittenKeepsWhitespace()
    ensures CStr(" 1"[..2]) == " 1"
    ensures RemoveWhitespace(" 1") == "1"
  {
    assert " 1"[..2] == " 1";
    assert RemoveWhitespace(" 1"[..1]) == [];
  }

  /** The copying loop of the corrected filter_whitespace, into a zeroed scratch buffer. */
  method CopyNonSpace(input: string, len: nat) returns (finput: array<char>, j: nat)
    requires len <= |input|
    ensures fresh(finput) && finput.Length == len + 1 && j <= len
    ensures finput[..j] == RemoveWhitespace(input[..len])
    ensures forall k :: j <= k <= len ==> finput[k] == '\0'
  {
    finput := new char[len + 1](_ => '\0');
    j := 0;
    for i := 0 to len
      invariant j <= i
      invariant finput[..j] == RemoveWhitespace(input[..i])
      invariant forall k :: j <= k <= len ==> finput[k] == '\0'
    {
      assert input[..i + 1][..i] == input[..i];
      assert RemoveWhitespace(input[..i + 1])
        == RemoveWhitespace(input[..i]) + (if IsSpace(input[i]) then [] else [input[i]]);
      if !IsSpace(input[i]) {
        finput[j] := input[i];
        assert finput[..j + 1] == finput[..j] + [input[i]];
        j := j + 1;
      }
    }
  }

  /** malloc(n + 1) and memcpy of n characters and the terminator. */
  method CopyTerminated(source: array<char>, n: nat) returns (result: string)
    requires n < source.Length && source[n] == '\0'
    ensures result == source[..n] + ['\0']
  {
    var block := new char[n + 1](_ => '\0');
    for k := 0 to n
      invariant block[..k] == source[..k]
      invariant block[n] == '\0'
    {
      block[k] := source[k];
    }
    assert block[..] == block[..n] + [block[n]];
    result := block[..];
  }

  /**
   * filter_whitespace corrected: the test reads input[i] and the result block holds the
   * terminator. `result` is the whole allocated block.
   */
  method FilterWhitespace(input: string, len: nat) returns (result: string)
    requires len <= |input|
    ensures result == CStr(RemoveWhitespace(input[..len])) + ['\0']
  {
    var finput, j := CopyNonSpace(input, len);
    ghost var filtered := RemoveWhitespace(input[..len]);
    assert finput[..] == filtered + finput[j..];
    CStrOfSplit(filtered, finput[j..]);
    var flen := StrLen(finput);
    result := CopyTerminated(finput, flen);
  }

  /** The C string of a buffer whose NUL comes right after a NUL-free prefix. */
  lemma {:induction false} CStrOfSplit(a: string, b: string)
    requires b != [] && b[0] == '\0'
    ensures CStr(a + b) == CStr(a)
  {
    if a != [] {
      assert (a + b)[1..] == a[1..] + b;
      CStrOfSplit(a[1..], b);
    }
  }
}
