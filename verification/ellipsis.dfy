/** The dashboard's address shortener: the first six characters, "...",
    and the last four, with JavaScript's `String.prototype.slice` semantics
    (section 22.1.3.22 of ECMA-262) for strings too short to cut. */
module AccountEllipsis {

  function Min(a: int, b: int): int
  {
    if a <= b then a else b
  }

  /** A relative slice index resolved against a string of length `n`:
      negative indices count from the end, and the result is clamped to
      `0 .. n`. */
  function ResolveIndex(i: int, n: nat): (k: nat)
    ensures k <= n
    ensures 0 <= i <= n ==> k == i
    ensures i > n ==> k == n
    ensures i < 0 && n + i >= 0 ==> k == n + i
    ensures n + i < 0 ==> k == 0
  {
    if i < 0 then (if n + i < 0 then 0 else n + i)
    else Min(i, n)
  }

  /** `s.slice(start, end)`: the characters from the resolved start up to the
      resolved end, or nothing when the end does not lie after the start. */
  function Slice(s: string, start: int, end: int): (r: string)
    ensures 0 <= start <= end <= |s| ==> r == s[start..end]
    ensures 0 <= start <= |s| < end ==> r == s[start..]
    ensures 0 <= end <= start ==> r == ""
    ensures start < 0 && |s| + start >= 0 && end >= |s| ==> r == s[|s| + start..]
    ensures |s| + start < 0 && end >= |s| ==> r == s
  {
    var from := ResolveIndex(start, |s|);
    var to := ResolveIndex(end, |s|);
    if to <= from then "" else s[from..to]
  }

  /** `accountEllipsis(address)`: the empty string stays empty; otherwise
      `address.slice(0, 6) + "..." + address.slice(-4)`. */
  function Shorten(address: string): (r: string)
    ensures |address| == 0 ==> r == ""
    ensures |address| > 0 ==>
              r == address[..Min(6, |address|)] + "..." + address[|address| - Min(4, |address|)..]
  {
    if |address| == 0 then ""
    else Slice(address, 0, 6) + "..." + Slice(address, -4, |address|)
  }

  /** A non-empty input shortens to `min(6, n) + 3 + min(4, n)` characters:
      13 for anything of at least six characters, such as a 42-character
      address. */
  lemma ShortenLength(address: string)
    requires |address| > 0
    ensures |Shorten(address)| == Min(6, |address|) + 3 + Min(4, |address|)
    ensures |address| >= 6 ==> |Shorten(address)| == 13
  {
  }

  /** The shortened form keeps the address's head and tail verbatim around
      the "..." marker. */
  lemma ShortenKeepsEnds(address: string)
    requires |address| >= 6
    ensures Shorten(address)[..6] == address[..6]
    ensures Shorten(address)[6..9] == "..."
    ensures Shorten(address)[9..] == address[|address| - 4..]
  {
  }

  /** The default betting-contract address the info panel shows. */
  lemma DefaultContractAddress()
    ensures Shorten("0x1234567890123456789012345678901234567890") == "0x1234...7890"
  {
    var address := "0x1234567890123456789012345678901234567890";
    assert |address| == 42;
    assert address[..6] == "0x1234" by {
      assert address[0] == '0' && address[1] == 'x' && address[2] == '1';
      assert address[3] == '2' && address[4] == '3' && address[5] == '4';
    }
    assert address[38..] == "7890" by {
      assert address[38] == '7' && address[39] == '8' && address[40] == '9' && address[41] == '0';
    }
  }
}
