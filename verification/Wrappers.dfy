/** Results and text checks shared by the models. */
module Wrappers {
  datatype Option<+T> = None | Some(value: T)

  // The white space that stripping a text removes: all of Unicode's.
  predicate Space(c: char) {
    var n := c as int;
    9 <= n <= 13 || 28 <= n <= 32 || 8192 <= n <= 8202
    || n in {0x85, 0xA0, 0x1680, 0x2028, 0x2029, 0x202F, 0x205F, 0x3000}
  }

  // Not empty and not only white space.
  predicate Text(s: string) {
    exists i :: 0 <= i < |s| && !Space(s[i])
  }
}
