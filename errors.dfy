/** The supervisor's errors and their Debug rendering, the text a failed command reports. */
module Errors {

  datatype ActorError =
    | SupervisorModelProcessTaskIdNotFound(owner: string)
    | SupervisorModelProcessEchoFailed(owner: string)
    | SupervisoRunCommandNotImplemented
    | SupervisorModelEmitKillEmitMessageFailed(owner: string)
    | SupervisorModelKillEmitTaskIdNotFound(owner: string)
    | SupervisorTaskStatsTaskIdNotFound(owner: string)
    | SupervisorEmitTaskStatsEmitMessageFailed(owner: string)
    | SupervisorModelSpawnInsertTaskIdFailed(owner: string)
    | SupervisorModelSpawnModelSpawnFailed(owner: string)

  function VariantName(e: ActorError): string
  {
    match e
    case SupervisorModelProcessTaskIdNotFound(_) => "SupervisorModelProcessTaskIdNotFound"
    case SupervisorModelProcessEchoFailed(_) => "SupervisorModelProcessEchoFailed"
    case SupervisoRunCommandNotImplemented => "SupervisoRunCommandNotImplemented"
    case SupervisorModelEmitKillEmitMessageFailed(_) => "SupervisorModelEmitKillEmitMessageFailed"
    case SupervisorModelKillEmitTaskIdNotFound(_) => "SupervisorModelKillEmitTaskIdNotFound"
    case SupervisorTaskStatsTaskIdNotFound(_) => "SupervisorTaskStatsTaskIdNotFound"
    case SupervisorEmitTaskStatsEmitMessageFailed(_) => "SupervisorEmitTaskStatsEmitMessageFailed"
    case SupervisorModelSpawnInsertTaskIdFailed(_) => "SupervisorModelSpawnInsertTaskIdFailed"
    case SupervisorModelSpawnModelSpawnFailed(_) => "SupervisorModelSpawnModelSpawnFailed"
  }

  /** A control character (Unicode general category Cc): C0, DEL and C1. */
  predicate IsControl(c: char)
  {
    c < ' ' || 0x7f <= c as int <= 0x9f
  }

  /** A lowercase hexadecimal digit. */
  predicate IsHexDigit(c: char)
  {
    '0' <= c <= '9' || 'a' <= c <= 'f'
  }

  /** `n` in lowercase hexadecimal, without leading zeros. */
  function LowerHex(n: nat): (r: string)
    ensures |r| >= 1 && forall i :: 0 <= i < |r| ==> IsHexDigit(r[i])
  {
    var d := n % 16;
    var digit := if d < 10 then '0' + d as char else 'a' + (d - 10) as char;
    if n < 16 then [digit] else LowerHex(n / 16) + [digit]
  }

  /**
   * Debug escaping of one character of a string: the quote, the backslash,
   * the named escapes, and every other control character as `\u{..}` in
   * lowercase hexadecimal.
   */
  function DebugChar(c: char): string
  {
    if c == '"' then "\\\""
    else if c == '\\' then "\\\\"
    else if c == '\n' then "\\n"
    else if c == '\r' then "\\r"
    else if c == '\t' then "\\t"
    else if c == '\0' then "\\0"
    else if IsControl(c) then "\\u{" + LowerHex(c as nat) + "}"
    else [c]
  }

  /** Escaping leaves no control character and no bare quote: each quote is preceded by a backslash. */
  lemma DebugCharClean(c: char)
    ensures forall i :: 0 <= i < |DebugChar(c)| ==> !IsControl(DebugChar(c)[i])
    ensures forall i :: 0 <= i < |DebugChar(c)| && DebugChar(c)[i] == '"' ==> i > 0 && DebugChar(c)[i - 1] == '\\'
    ensures !IsControl(c) && c != '"' && c != '\\' ==> DebugChar(c) == [c]
  {
    if IsControl(c) && c != '\n' && c != '\r' && c != '\t' && c != '\0' {
      var h := LowerHex(c as nat);
      assert DebugChar(c) == "\\u{" + h + "}";
      assert forall i :: 0 <= i < |h| ==> !IsControl(h[i]) && h[i] != '"' by {
        forall i | 0 <= i < |h| ensures !IsControl(h[i]) && h[i] != '"' {
          assert IsHexDigit(h[i]);
        }
      }
    }
  }

  /** Debug escaping of a whole string, character by character. */
  function DebugEscape(s: string): string
  {
    if |s| == 0 then "" else DebugChar(s[0]) + DebugEscape(s[1..])
  }

  /**
   * An escaped owner holds no control character and no bare quote, so it
   * cannot end the quoted field early; text without control characters,
   * quotes or backslashes is kept as it is.
   */
  lemma {:induction false} DebugEscapeClean(s: string)
    ensures var r := DebugEscape(s);
      (forall i :: 0 <= i < |r| ==> !IsControl(r[i]))
      && (forall i :: 0 <= i < |r| && r[i] == '"' ==> i > 0 && r[i - 1] == '\\')
    ensures (forall i :: 0 <= i < |s| ==> !IsControl(s[i]) && s[i] != '"' && s[i] != '\\') ==> DebugEscape(s) == s
    decreases |s|
  {
    if |s| > 0 {
      DebugCharClean(s[0]);
      DebugEscapeClean(s[1..]);
      var a, b := DebugChar(s[0]), DebugEscape(s[1..]);
      assert DebugEscape(s) == a + b;
      forall i | 0 <= i < |a + b| && (a + b)[i] == '"'
        ensures i > 0 && (a + b)[i - 1] == '\\'
      {
        if i >= |a| {
          assert (a + b)[i] == b[i - |a|];
          if i - |a| > 0 {
            assert (a + b)[i - 1] == b[i - 1 - |a|];
          }
        }
      }
    }
  }

  /** `format!("{error:?}")`: the variant name, then its owner field. */
  function ErrorDebug(e: ActorError): (r: string)
    ensures |r| >= |VariantName(e)| && r[..|VariantName(e)|] == VariantName(e)
    ensures e.SupervisoRunCommandNotImplemented? <==> r == VariantName(e)
  {
    match e
    case SupervisoRunCommandNotImplemented => VariantName(e)
    case _ => VariantName(e) + " { owner: \"" + DebugEscape(e.owner) + "\" }"
  }
}
