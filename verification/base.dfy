/** Small shared vocabulary: optional values, Python values as the stage
    scripts handle them, and the string helpers the scripts use
    (`in` on strings, `endswith`, `lower`, `replace`, `os.path.join`). */
module Base {

  datatype Option<+T> = None | Some(value: T)

  /** A value handed over by a database driver or a caller: `None`, an
      integer or a text. */
  datatype PyValue = Null | Int(i: int) | Text(s: string)

  /** Python truthiness of an optional string: `None` and `""` are false. */
  predicate Truthy(s: Option<string>) {
    s.Some? && |s.value| > 0
  }

  /** `s or default` for an optional string parameter. */
  function OrDefault(s: Option<string>, default: string): string {
    if Truthy(s) then s.value else default
  }

  /** `needle in hay` for strings: `needle` starts some suffix of `hay`;
      the empty needle is in every string. */
  predicate Contains(hay: string, needle: string) {
    exists i :: 0 <= i <= |hay| && needle <= hay[i..]
  }

  /** A string contains every piece it was built around. */
  lemma ContainsInside(pre: string, needle: string, post: string)
    ensures Contains(pre + needle + post, needle)
  {
    var s := pre + needle + post;
    assert s[|pre|..] == needle + post;
  }

  predicate EndsWith(s: string, suffix: string) {
    |suffix| <= |s| && s[|s| - |suffix|..] == suffix
  }

  /** ASCII lower-casing (the only letters the scripts compare are ASCII). */
  function LowerChar(c: char): char {
    if 'A' <= c <= 'Z' then (c as int + 32) as char else c
  }

  function Lower(s: string): (r: string)
    ensures |r| == |s|
    ensures forall i :: 0 <= i < |s| ==> r[i] == LowerChar(s[i])
  {
    seq(|s|, i requires 0 <= i < |s| => LowerChar(s[i]))
  }

  /** `s.replace(a, b)` for single characters. */
  function Replace(s: string, a: char, b: char): (r: string)
    ensures |r| == |s|
    ensures forall i :: 0 <= i < |s| ==> r[i] == (if s[i] == a then b else s[i])
  {
    if |s| == 0 then "" else [if s[0] == a then b else s[0]] + Replace(s[1..], a, b)
  }

  /** POSIX `os.path.join(dir, name)` for two components. */
  function Join(dir: string, name: string): string {
    if |name| > 0 && name[0] == '/' then name
    else if |dir| == 0 || dir[|dir| - 1] == '/' then dir + name
    else dir + "/" + name
  }
}
