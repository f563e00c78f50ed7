/** Character classes and string tables of the HTTP/1 parser, strict mode. One `char` is one byte. */
module HttpChars {
  predicate IsNum(ch: char) { '0' <= ch <= '9' }

  predicate IsAlpha(ch: char) { 'A' <= ch <= 'Z' || 'a' <= ch <= 'z' }

  predicate IsAlphaNum(ch: char) { IsAlpha(ch) || IsNum(ch) }

  predicate IsHex(ch: char) { IsNum(ch) || 'a' <= ch <= 'f' || 'A' <= ch <= 'F' }

  /** Bit 5 is set, whatever the byte is: also a tab becomes a closing parenthesis. */
  function Lower(ch: char): char {
    var i := ch as int;
    if i < 256 && (i / 32) % 2 == 0 then (i + 32) as char else ch
  }

  predicate IsTokenMark(ch: char) {
    || ch == '!' || ch == '#' || ch == '$' || ch == '%' || ch == '&' || ch == '\'' || ch == '*' || ch == '+'
    || ch == '-' || ch == '.' || ch == '^' || ch == '_' || ch == '`' || ch == '|' || ch == '~'
  }

  /** The token table: the lower-cased character, or NUL when `ch` cannot be part of a token. */
  function Token(ch: char): char {
    if IsAlpha(ch) then Lower(ch)
    else if IsNum(ch) || IsTokenMark(ch) then ch
    else '\0'
  }

  predicate IsUrlChar(ch: char) {
    33 <= ch as int <= 126 && ch != '#' && ch != '?'
  }

  predicate IsUserinfoMark(ch: char) {
    || ch == '-' || ch == '_' || ch == '.' || ch == '!' || ch == '~' || ch == '*' || ch == '\'' || ch == '(' || ch == ')'
    || ch == '%' || ch == ';' || ch == ':' || ch == '&' || ch == '=' || ch == '+' || ch == '$' || ch == ','
  }

  predicate IsUserinfoChar(ch: char) { IsAlphaNum(ch) || IsUserinfoMark(ch) }

  predicate IsSchemaChar(ch: char) { IsAlphaNum(ch) || ch == '.' || ch == '-' || ch == '+' }

  predicate IsHostChar(ch: char) { IsAlphaNum(ch) || ch == '.' || ch == '-' }

  predicate IsHeaderChar(ch: char) {
    ch == '\r' || ch == '\n' || ch == '\t' || (ch as int > 31 && ch as int != 127)
  }

  function Digit(ch: char): nat
    requires IsNum(ch)
  {
    ch as int - '0' as int
  }

  /** The hex table: -1 for anything that is not a hex digit. */
  function Unhex(ch: char): int {
    if IsNum(ch) then Digit(ch)
    else if 'a' <= ch <= 'f' then ch as int - 'a' as int + 10
    else if 'A' <= ch <= 'F' then ch as int - 'A' as int + 10
    else -1
  }

  /** A C string read: the terminator stands behind the last character. */
  function At(s: string, i: nat): char {
    if i < |s| then s[i] else '\0'
  }
}
