/** The two pieces of `java.lang.String` behaviour the plugin descriptor relies on. */
module JavaStrings {

  /** The pieces separated by single spaces: the inverse of splitting on ' '. */
  function Join(pieces: seq<string>): string {
    if |pieces| == 0 then ""
    else if |pieces| == 1 then pieces[0]
    else pieces[0] + " " + Join(pieces[1..])
  }

  /** Every piece between two spaces of `s`, empty pieces included. */
  function Pieces(s: string): (r: seq<string>)
    ensures |r| >= 1
    ensures forall i :: 0 <= i < |r| ==> ' ' !in r[i]
    ensures Join(r) == s
  {
    if s == [] then [""]
    else
      var rest := Pieces(s[1..]);
      if s[0] == ' ' then
        assert ([""] + rest)[1..] == rest;
        [""] + rest
      else
        var r := [[s[0]] + rest[0]] + rest[1..];
        assert r[1..] == rest[1..];
        assert |rest| > 1 ==> Join(rest) == rest[0] + " " + Join(rest[1..]);
        assert s == [s[0]] + s[1..];
        r
  }

  /** `ps` without its trailing empty strings. */
  function DropTrailingEmpty(ps: seq<string>): (r: seq<string>)
    ensures r <= ps
    ensures r == [] || r[|r| - 1] != ""
    ensures forall i :: |r| <= i < |ps| ==> ps[i] == ""
  {
    if ps == [] then []
    else if ps[|ps| - 1] == "" then DropTrailingEmpty(ps[..|ps| - 1])
    else ps
  }

  /** `s` without its trailing spaces. */
  function StripTrailingSpaces(s: string): (r: string)
    ensures r <= s
    ensures r == [] || r[|r| - 1] != ' '
    ensures forall i :: |r| <= i < |s| ==> s[i] == ' '
  {
    if s != [] && s[|s| - 1] == ' ' then StripTrailingSpaces(s[..|s| - 1]) else s
  }

  /**
   * `s.split(" ")`: with no space in `s` the result is `s` itself; otherwise
   * the pieces between the spaces, with the trailing empty ones removed.
   */
  function Split(s: string): (r: seq<string>)
    ensures forall i :: 0 <= i < |r| ==> ' ' !in r[i]
    ensures Join(r) == StripTrailingSpaces(s)
    ensures ' ' in s ==> r == [] || r[|r| - 1] != ""
    ensures ' ' !in s ==> r == [s]
  {
    if ' ' !in s then
      assert s != [] ==> s[|s| - 1] in s;
      [s]
    else
      JoinDropTrailing(Pieces(s));
      DropTrailingEmpty(Pieces(s))
  }

  lemma {:induction false} JoinSnoc(ps: seq<string>, p: string)
    requires |ps| >= 1
    ensures Join(ps + [p]) == Join(ps) + " " + p
  {
    if |ps| == 1 {
      assert (ps + [p])[1..] == [p];
    } else {
      assert (ps + [p])[1..] == ps[1..] + [p];
      JoinSnoc(ps[1..], p);
    }
  }

  /** Removing trailing empty pieces removes exactly the trailing spaces of the joined string. */
  lemma {:induction false} JoinDropTrailing(ps: seq<string>)
    requires |ps| >= 1
    requires forall i :: 0 <= i < |ps| ==> ' ' !in ps[i]
    ensures Join(DropTrailingEmpty(ps)) == StripTrailingSpaces(Join(ps))
  {
    var last := ps[|ps| - 1];
    var init := ps[..|ps| - 1];
    if |ps| == 1 {
      if last != "" {
        assert last[|last| - 1] in last;
      }
    } else {
      assert ps == init + [last];
      JoinSnoc(init, last);
      if last == "" {
        var j := Join(init);
        assert (j + " " + "")[..|j|] == j;
        JoinDropTrailing(init);
      } else {
        assert last[|last| - 1] in last;
        assert Join(ps)[|Join(ps)| - 1] == last[|last| - 1];
      }
    }
  }

  const TWO_TO_32 := 0x1_0000_0000
  const TWO_TO_31 := 0x8000_0000

  /** `String.hashCode()` before the final reinterpretation: h := 31 * h + c over 32 bits. */
  function UnsignedHash(s: string): (r: int)
    ensures 0 <= r < TWO_TO_32
  {
    if s == [] then 0
    else (31 * UnsignedHash(s[..|s| - 1]) + s[|s| - 1] as int) % TWO_TO_32
  }

  /** `String.hashCode()`: the 32-bit wrapped polynomial hash read as a signed `int`. */
  function HashCode(s: string): (r: int)
    ensures -TWO_TO_31 <= r < TWO_TO_31
    ensures r % TWO_TO_32 == UnsignedHash(s)
  {
    var u := UnsignedHash(s);
    if u < TWO_TO_31 then u else u - TWO_TO_32
  }
}
