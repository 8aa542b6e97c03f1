/** extractJsonFromTextParts: finding the first JSON object or array in a model's answer. */
module JsonExtract {
  import opened Options

  import opened JsonText

  // ---- removing code fences --------------------------------------------------------------

  function Lower(c: char): char {
    if 'A' <= c <= 'Z' then c + ' ' else c
  }

  predicate StartsFence(s: string) { |s| >= 3 && s[0] == '`' && s[1] == '`' && s[2] == '`' }

  predicate StartsJsonWord(s: string) {
    |s| >= 4 && Lower(s[0]) == 'j' && Lower(s[1]) == 's' && Lower(s[2]) == 'o' && Lower(s[3]) == 'n'
  }

  /** text.replace(/```(?:json)?/gi, ""). */
  function Unfence(s: string): string {
    if StartsFence(s) then Unfence(s[if StartsJsonWord(s[3..]) then 7 else 3..])
    else if s == "" then ""
    else [s[0]] + Unfence(s[1..])
  }

  predicate HasFence(s: string) {
    s != "" && (StartsFence(s) || HasFence(s[1..]))
  }

  // ---- the bracket scanner ---------------------------------------------------------------

  predicate IsOpen(c: char) { c == '{' || c == '[' }

  function Closing(open: char): char { if open == '{' then '}' else ']' }

  datatype Scanner = Scanner(depth: int, inString: bool, escaped: bool)

  /** One turn of the loop; the result's depth is 0 after a closing bracket exactly when the
      value is complete. */
  function Step(open: char, st: Scanner, ch: char): Scanner {
    if st.inString then
      if st.escaped then st.(escaped := false)
      else if ch == '\\' then st.(escaped := true)
      else if ch == '"' then st.(inString := false)
      else st
    else if ch == '"' then st.(inString := true)
    else if ch == open then st.(depth := st.depth + 1)
    else if ch == Closing(open) then st.(depth := st.depth - 1)
    else st
  }

  predicate Completes(open: char, st: Scanner, ch: char) {
    !st.inString && ch == Closing(open) && st.depth == 1
  }

  /** How many characters of s the scanner reads until the value is complete. */
  function Scan(open: char, s: string, st: Scanner): Option<nat> {
    if s == "" then None
    else if Completes(open, st, s[0]) then Some(1)
    else Shift(1, Scan(open, s[1..], Step(open, st, s[0])))
  }

  function Shift(n: nat, r: Option<nat>): Option<nat> {
    match r
    case None => None
    case Some(k) => Some(n + k)
  }

  function FirstOpen(s: string): (i: nat)
    ensures i <= |s|
    ensures i < |s| ==> IsOpen(s[i])
    ensures forall k :: 0 <= k < i ==> !IsOpen(s[k])
  {
    if s == "" || IsOpen(s[0]) then 0 else 1 + FirstOpen(s[1..])
  }

  const START := Scanner(0, false, false)

  function ExtractUnfenced(u: string): Option<string> {
    var start := FirstOpen(u);
    if start == |u| then None
    else
      match Scan(u[start], u[start..], START)
      case None => None
      case Some(n) => if start + n <= |u| then Some(u[start..start + n]) else None
  }

  /** The slice handed to JSON.parse, if any. */
  function Extract(text: string): Option<string> { ExtractUnfenced(Unfence(text)) }

  // ---- the loop ---------------------------------------------------------------------------

  lemma {:induction false} ScanInside(open: char, s: string, st: Scanner)
    ensures Scan(open, s, st).Some? ==> 0 < Scan(open, s, st).value <= |s|
  {
    if s != "" && !Completes(open, st, s[0]) {
      ScanInside(open, s[1..], Step(open, st, s[0]));
    }
  }

  /** The part of extractJsonFromTextParts after the fences are gone. */
  method ExtractLoop(unfenced: string) returns (r: Option<string>)
    ensures r == ExtractUnfenced(unfenced)
  {
    var start := FirstOpen(unfenced);
    if start == |unfenced| {
      return None;
    }
    var openCh := unfenced[start];
    var closeCh := Closing(openCh);
    var depth, inString, escaped := 0, false, false;
    ghost var want := Scan(openCh, unfenced[start..], START);
    ScanInside(openCh, unfenced[start..], START);
    for i := start to |unfenced|
      invariant want == Shift(i - start, Scan(openCh, unfenced[i..], Scanner(depth, inString, escaped)))
    {
      var ch := unfenced[i];
      assert unfenced[i..][0] == ch && unfenced[i..][1..] == unfenced[i + 1..];
      if inString {
        if escaped {
          escaped := false;
        } else if ch == '\\' {
          escaped := true;
        } else if ch == '"' {
          inString := false;
        }
        continue;
      }
      if ch == '"' {
        inString := true;
      } else if ch == openCh {
        depth := depth + 1;
      } else if ch == closeCh {
        depth := depth - 1;
        if depth == 0 {
          return Some(unfenced[start..i + 1]);
        }
      }
    }
    return None;
  }
}
