/** Text as the two languages of the pipeline see it: a sequence of UTF-16 code
    units (the runner) or, where no surrogate occurs, of code points (Python). */
module Text {
  type CodeUnit = c: int | 0 <= c < 0x10000
  type Text = seq<CodeUnit>
  type SpaceClass = CodeUnit -> bool

  predicate IsHighSurrogate(c: CodeUnit) { 0xd800 <= c <= 0xdbff }

  predicate IsLowSurrogate(c: CodeUnit) { 0xdc00 <= c <= 0xdfff }

  /** JavaScript's `\s`, which is also what String.prototype.trim strips. */
  predicate JsSpace(c: CodeUnit) {
    || 9 <= c <= 13 || c == 0x20 || c == 0xa0 || c == 0x1680 || 0x2000 <= c <= 0x200a
    || c == 0x2028 || c == 0x2029 || c == 0x202f || c == 0x205f || c == 0x3000 || c == 0xfeff
  }

  /** Python's str.isspace on one code point, which is also what str.split and str.strip use. */
  predicate PySpace(c: CodeUnit) {
    || 9 <= c <= 13 || 0x1c <= c <= 0x20 || c == 0x85 || c == 0xa0 || c == 0x1680 || 0x2000 <= c <= 0x200a
    || c == 0x2028 || c == 0x2029 || c == 0x202f || c == 0x205f || c == 0x3000
  }

  /** No surrogate is whitespace: true of both classes above. */
  ghost predicate SparesSurrogates(space: SpaceClass) {
    forall c: CodeUnit :: IsHighSurrogate(c) || IsLowSurrogate(c) ==> !space(c)
  }

  predicate Blank(text: Text, space: SpaceClass) {
    forall i :: 0 <= i < |text| ==> space(text[i])
  }

  predicate SurrogateFree(text: Text) {
    forall i :: 0 <= i < |text| ==> !IsHighSurrogate(text[i]) && !IsLowSurrogate(text[i])
  }

  /** A boundary at `at` falls between the two halves of a surrogate pair. */
  predicate SplitsPair(text: Text, at: nat) {
    0 < at < |text| && IsHighSurrogate(text[at - 1]) && IsLowSurrogate(text[at])
  }

  /** Every surrogate belongs to a pair. */
  predicate WellFormed(text: Text) {
    forall i :: 0 <= i < |text| ==>
      && (IsHighSurrogate(text[i]) ==> i + 1 < |text| && IsLowSurrogate(text[i + 1]))
      && (IsLowSurrogate(text[i]) ==> 0 < i && IsHighSurrogate(text[i - 1]))
  }
}
