// Text as Go holds it: a string of bytes, each a char below 256.
module Text {

  // unicode.IsControl somewhere in the UTF-8 text: C0, DEL, or C1 in its
  // two-byte form.
  predicate HasControl(s: string) {
    exists i :: 0 <= i < |s| && ControlAt(s, i)
  }

  predicate ControlAt(s: string, i: nat)
    requires i < |s|
  {
    var c := s[i] as int;
    c < 0x20 || c == 0x7F || (c == 0xC2 && i + 1 < |s| && 0x80 <= s[i + 1] as int <= 0x9F)
  }

  // strings.ContainsAny(value, "\x00\r\n")
  predicate HasLineControl(s: string) {
    exists i :: 0 <= i < |s| && (s[i] == '\0' || s[i] == '\r' || s[i] == '\n')
  }

  // validateText: required, at most so many bytes, no control character.
  predicate ValidText(s: string, required: bool, max: nat) {
    !(required && s == "") && |s| <= max && !HasControl(s)
  }

  predicate NulFree(s: string) {
    forall i :: 0 <= i < |s| ==> s[i] != '\0'
  }

  lemma ValidTextIsNulFree(s: string, required: bool, max: nat)
    requires ValidText(s, required, max)
    ensures NulFree(s)
  {
    forall i | 0 <= i < |s| ensures s[i] != '\0' { assert !ControlAt(s, i); }
  }

  lemma LineSafeIsNulFree(s: string)
    requires !HasLineControl(s)
    ensures NulFree(s)
  {
  }

  // strings.Join
  function Join(parts: seq<string>, separator: string): string {
    if parts == [] then ""
    else if |parts| == 1 then parts[0]
    else parts[0] + separator + Join(parts[1..], separator)
  }

  // ---- In words -------------------------------------------------------------------

  lemma ControlInWords(s: string)
    ensures HasControl(s) <==> exists i :: 0 <= i < |s| && ControlByte(s, i)
  {
    if i :| 0 <= i < |s| && ControlAt(s, i) { assert ControlByte(s, i); }
    if i :| 0 <= i < |s| && ControlByte(s, i) { assert ControlAt(s, i); }
  }

  // A byte below the space, the delete byte, or the first of the two bytes of a
  // C1 control.
  predicate ControlByte(s: string, i: nat)
    requires i < |s|
  {
    || s[i] as int <= 31 || s[i] as int == 127
    || (s[i] as int == 194 && i + 1 < |s| && 128 <= s[i + 1] as int && s[i + 1] as int <= 159)
  }

  lemma LineControlInWords(s: string)
    ensures HasLineControl(s) <==> '\0' in s || '\r' in s || '\n' in s
  {
  }

  lemma ValidTextInWords(s: string, required: bool, max: nat)
    ensures ValidText(s, required, max) <==>
              |s| <= max && (required ==> |s| > 0) && forall i :: 0 <= i < |s| ==> !ControlByte(s, i)
  {
    ControlInWords(s);
  }
}
