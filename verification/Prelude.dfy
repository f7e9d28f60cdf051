/** Small types shared by every module: failure-carrying results, machine words and suffixes. */
module Prelude {

  datatype Option<+T> = None | Some(value: T)

  datatype Result<+T, +E> = Ok(value: T) | Err(error: E)

  type byte = x: int | 0 <= x < 0x100

  const UINT32_MAX := 0xFFFF_FFFF
  const UINT64_MAX := 0xFFFF_FFFF_FFFF_FFFF
  const INT64_MAX := 0x7FFF_FFFF_FFFF_FFFF

  type uint16 = x: int | 0 <= x < 0x1_0000
  type uint32 = x: int | 0 <= x <= UINT32_MAX
  type uint64 = x: int | 0 <= x <= UINT64_MAX
  type int64 = x: int | -INT64_MAX - 1 <= x <= INT64_MAX

  function Min(a: int, b: int): int {
    if a < b then a else b
  }

  function Max(a: int, b: int): int {
    if a < b then b else a
  }

  /** `s` is `front` and one element more. */
  ghost predicate IsAppended<T>(s: seq<T>, front: seq<T>, last: T) {
    |s| == |front| + 1 && s[..|front|] == front && s[|front|] == last
  }

  /** `s` is what remains of `whole` after dropping some of its front. */
  ghost predicate IsSuffix<T>(s: seq<T>, whole: seq<T>) {
    |s| <= |whole| && whole[|whole| - |s|..] == s
  }
}
