/** JSON texts as section 2 to 7 of RFC 8259 describe them, with every choice the grammar
    leaves open: insignificant whitespace, escapes, number forms. */
module JsonText {
  datatype StrItem = Plain(c: char) | Escape(c: char) | Unicode(hex: string)

  datatype Json =
    | Null | True | False
    | Num(minus: bool, whole: string, frac: string, exp: string)
    | Str(items: seq<StrItem>)
    | EmptyArr(pad: string) | Arr(elems: Elems)
    | EmptyObj(pad: string) | Obj(members: Members)

  datatype Elems =
    | LastElem(before: string, value: Json, after: string)
    | MoreElems(before: string, value: Json, after: string, rest: Elems)

  datatype Members =
    | LastMember(before: string, key: seq<StrItem>, gap: string, value: Json, after: string)
    | MoreMembers(before: string, key: seq<StrItem>, gap: string, value: Json, after: string, rest: Members)

  predicate IsDigit(c: char) { '0' <= c <= '9' }

  predicate IsHex(c: char) { IsDigit(c) || 'a' <= c <= 'f' || 'A' <= c <= 'F' }

  predicate AllDigits(s: string) { forall i :: 0 <= i < |s| ==> IsDigit(s[i]) }

  predicate IsWs(s: string) { forall i :: 0 <= i < |s| ==> s[i] in " \t\n\r" }

  predicate GoodItem(item: StrItem) {
    match item
    case Plain(c) => c != '"' && c != '\\' && ' ' <= c
    case Escape(c) => c in "\"\\/bfnrt"
    case Unicode(hex) => |hex| == 4 && forall i :: 0 <= i < 4 ==> IsHex(hex[i])
  }

  predicate GoodItems(items: seq<StrItem>) { forall i :: 0 <= i < |items| ==> GoodItem(items[i]) }

  /** The colon of a member with the whitespace around it. */
  predicate IsGap(s: string) { exists k :: 0 <= k < |s| && s[k] == ':' && IsWs(s[..k]) && IsWs(s[k + 1..]) }

  /** An exponent part: nothing, or e/E, an optional sign and digits. */
  predicate IsExp(s: string) {
    || s == ""
    || (2 <= |s| && s[0] in "eE" && AllDigits(s[1..]))
    || (3 <= |s| && s[0] in "eE" && s[1] in "+-" && AllDigits(s[2..]))
  }

  predicate Good(v: Json) {
    match v
    case Null => true
    case True => true
    case False => true
    case Num(_, whole, frac, exp) =>
      whole != "" && AllDigits(whole) && (whole[0] == '0' ==> whole == "0") && AllDigits(frac) && IsExp(exp)
    case Str(items) => GoodItems(items)
    case EmptyArr(pad) => IsWs(pad)
    case Arr(elems) => GoodElems(elems)
    case EmptyObj(pad) => IsWs(pad)
    case Obj(members) => GoodMembers(members)
  }

  predicate GoodElems(e: Elems) {
    IsWs(e.before) && Good(e.value) && IsWs(e.after) && (e.MoreElems? ==> GoodElems(e.rest))
  }

  predicate GoodMembers(m: Members) {
    && IsWs(m.before) && GoodItems(m.key) && IsGap(m.gap) && Good(m.value) && IsWs(m.after)
    && (m.MoreMembers? ==> GoodMembers(m.rest))
  }

  function PrintItem(item: StrItem): string {
    match item
    case Plain(c) => [c]
    case Escape(c) => ['\\', c]
    case Unicode(hex) => "\\u" + hex
  }

  function PrintItems(items: seq<StrItem>): string {
    if items == [] then "" else PrintItem(items[0]) + PrintItems(items[1..])
  }

  function PrintStr(items: seq<StrItem>): string { "\"" + PrintItems(items) + "\"" }

  function PrintNum(v: Json): string
    requires v.Num?
  {
    (if v.minus then "-" else "") + v.whole + (if v.frac == "" then "" else "." + v.frac) + v.exp
  }

  function Print(v: Json): string {
    match v
    case Null => "null"
    case True => "true"
    case False => "false"
    case Num(_, _, _, _) => PrintNum(v)
    case Str(items) => PrintStr(items)
    case EmptyArr(pad) => "[" + pad + "]"
    case Arr(elems) => "[" + PrintElems(elems) + "]"
    case EmptyObj(pad) => "{" + pad + "}"
    case Obj(members) => "{" + PrintMembers(members) + "}"
  }

  function PrintElems(e: Elems): string {
    e.before + Print(e.value) + e.after + if e.MoreElems? then "," + PrintElems(e.rest) else ""
  }

  function PrintMembers(m: Members): string {
    m.before + PrintStr(m.key) + m.gap + Print(m.value) + m.after
    + if m.MoreMembers? then "," + PrintMembers(m.rest) else ""
  }

  /** An object or an array: what the extractor looks for. */
  predicate IsContainer(v: Json) { v.EmptyArr? || v.Arr? || v.EmptyObj? || v.Obj? }
}
