/** The IPv4 scanner (validation.c) and the language it accepts. */
module Ipv4 {
  import opened CStrings

  /** The parts between the dots; there is one more than there are dots. */
  function Parts(s: string): (r: seq<string>)
    ensures |r| >= 1
  {
    if s == "" then [""]
    else
      var init := Parts(s[..|s| - 1]);
      var c := s[|s| - 1];
      if c == '.' then init + [""] else init[..|init| - 1] + [init[|init| - 1] + [c]]
  }

  /** A part the scanner puts up with: at most three digits, possibly none, up to 255. */
  predicate LoosePart(s: string) {
    |s| <= 3 && AllDigits(s) && Number(s) <= 255
  }

  /** The accepted language: four such parts, of which only the last has to have a digit. */
  predicate Accepted(ip: string) {
    var parts := Parts(ip);
    |parts| == 4 && (forall i :: 0 <= i < 4 ==> LoosePart(parts[i])) && parts[3] != ""
  }

  /** The scan so far: all finished parts are fine, and the current one is digits that fit
      the buffer. */
  ghost predicate Scanned(s: string, nums: nat, dots: nat, buf: string) {
    var parts := Parts(s);
    && nums == dots == |parts| - 1
    && parts[dots] == buf
    && |buf| <= 3 && AllDigits(buf)
    && forall i :: 0 <= i < dots ==> LoosePart(parts[i])
  }

  /** Once a finished part is bad, or the current one cannot become good, every longer text
      is bad. */
  ghost predicate Doomed(s: string) {
    var parts := Parts(s); var n := |parts| - 1;
    (exists i :: 0 <= i < n && !LoosePart(parts[i])) || |parts[n]| > 3 || !AllDigits(parts[n])
  }

  lemma PartsStep(ip: string, k: nat)
    requires k < |ip|
    ensures var before := Parts(ip[..k]); var n := |before| - 1;
      Parts(ip[..k + 1]) == if ip[k] == '.' then before + [""] else before[..n] + [before[n] + [ip[k]]]
  {
    assert ip[..k + 1][..k] == ip[..k];
  }

  lemma {:induction false} DoomedStays(ip: string, k: nat)
    requires k <= |ip| && Doomed(ip[..k])
    ensures Doomed(ip)
    decreases |ip| - k
  {
    if k == |ip| {
      assert ip[..k] == ip;
    } else {
      PartsStep(ip, k);
      DoomedStep(ip, k);
      DoomedStays(ip, k + 1);
    }
  }

  lemma DoomedStep(ip: string, k: nat)
    requires k < |ip| && Doomed(ip[..k])
    ensures Doomed(ip[..k + 1])
  {
    var before, after := Parts(ip[..k]), Parts(ip[..k + 1]);
    var n := |before| - 1;
    PartsStep(ip, k);
    assert forall i :: 0 <= i < n ==> after[i] == before[i];
    if |before[n]| > 3 || !AllDigits(before[n]) {
      if ip[k] == '.' {
        assert after[n] == before[n] && !LoosePart(after[n]);
      } else {
        assert after[n] == before[n] + [ip[k]];
        if !AllDigits(before[n]) {
          var j :| 0 <= j < |before[n]| && !IsDigit(before[n][j]);
          assert after[n][j] == before[n][j];
        }
      }
    } else {
      var i :| 0 <= i < n && !LoosePart(before[i]);
      assert !LoosePart(after[i]);
    }
  }

  lemma DoomedRejected(ip: string)
    requires Doomed(ip)
    ensures !Accepted(ip)
  {
  }

  /** What one character does to the scan. */
  lemma ScanDot(ip: string, k: nat, nums: nat, dots: nat, buf: string)
    requires k < |ip| && ip[k] == '.' && Scanned(ip[..k], nums, dots, buf)
    ensures Number(buf) <= 255 ==> Scanned(ip[..k + 1], nums + 1, dots + 1, "")
    ensures Number(buf) > 255 ==> Doomed(ip[..k + 1])
  {
    PartsStep(ip, k);
    var after := Parts(ip[..k + 1]);
    assert after[dots] == buf;
    assert Number(buf) > 255 ==> !LoosePart(after[dots]);
  }

  lemma ScanOther(ip: string, k: nat, nums: nat, dots: nat, buf: string)
    requires k < |ip| && ip[k] != '.' && Scanned(ip[..k], nums, dots, buf)
    ensures IsDigit(ip[k]) && |buf| < 3 ==> Scanned(ip[..k + 1], nums, dots, buf + [ip[k]])
    ensures !IsDigit(ip[k]) || |buf| >= 3 ==> Doomed(ip[..k + 1])
  {
    PartsStep(ip, k);
    var after := Parts(ip[..k + 1]);
    assert after[dots] == buf + [ip[k]];
    assert !IsDigit(ip[k]) ==> !AllDigits(after[dots]) by { assert after[dots][|buf|] == ip[k]; }
  }

  /** validateIpv4: one pass with a four-character buffer and two counters. */
  method ValidateIpv4(ip: string) returns (valid: bool)
    ensures valid == Accepted(ip)
  {
    var nums, dots := 0, 0;
    var buf := new char[4];
    var bufpos := 0;
    var k := 0;
    assert ip[..0] == "" && buf[..0] == "";
    while k < |ip|
      invariant 0 <= k <= |ip| && nums >= 0 && dots >= 0 && 0 <= bufpos <= 3
      invariant Scanned(ip[..k], nums, dots, buf[..bufpos])
    {
      if ip[k] == '.' {
        ScanDot(ip, k, nums, dots, buf[..bufpos]);
        dots := dots + 1;
        var num := Number(buf[..bufpos]);
        if num > 255 {
          DoomedStays(ip, k + 1);
          DoomedRejected(ip);
          return false;
        }
        nums := nums + 1;
        bufpos := 0;
        assert buf[..bufpos] == "";
      } else {
        ScanOther(ip, k, nums, dots, buf[..bufpos]);
        if !IsDigit(ip[k]) || bufpos >= 3 {
          DoomedStays(ip, k + 1);
          DoomedRejected(ip);
          return false;
        }
        ghost var was := buf[..bufpos];
        buf[bufpos] := ip[k];
        bufpos := bufpos + 1;
        assert buf[..bufpos] == was + [ip[k]];
      }
      k := k + 1;
    }
    assert ip[..k] == ip;
    assert Parts(ip)[dots] == buf[..bufpos];
    if bufpos > 0 {
      var num := Number(buf[..bufpos]);
      if num > 255 {
        return false;
      }
      nums := nums + 1;
    }
    valid := nums == 4 && dots == 3;
  }

  // ---------- compared with RFC 3986 ----------

  /** dec-octet of section 3.2.2 of RFC 3986: no leading zero, 0 to 255. */
  predicate DecOctet(s: string) {
    && 1 <= |s| <= 3 && AllDigits(s) && Number(s) <= 255
    && (|s| > 1 ==> s[0] != '0')
  }

  function Dotted(a: string, b: string, c: string, d: string): string {
    a + "." + b + "." + c + "." + d
  }

  lemma {:induction false} PartsDigits(s: string, d: string)
    requires AllDigits(d)
    ensures var p := Parts(s); Parts(s + d) == p[..|p| - 1] + [p[|p| - 1] + d]
  {
    var p := Parts(s);
    if d == "" {
      assert s + d == s && p[|p| - 1] + d == p[|p| - 1];
      assert p == p[..|p| - 1] + [p[|p| - 1]];
    } else {
      var init := d[..|d| - 1];
      PartsDigits(s, init);
      assert (s + d)[..|s + d| - 1] == s + init;
      assert (p[|p| - 1] + init) + [d[|d| - 1]] == p[|p| - 1] + d;
    }
  }

  lemma PartsNext(s: string, p: seq<string>, d: string)
    requires Parts(s) == p && AllDigits(d)
    ensures Parts(s + "." + d) == p + [d]
  {
    assert (s + ".")[..|s|] == s;
    assert Parts(s + ".") == p + [""];
    PartsDigits(s + ".", d);
    assert (p + [""])[..|p|] == p && "" + d == d;
  }

  lemma PartsDotted(a: string, b: string, c: string, d: string)
    requires AllDigits(a) && AllDigits(b) && AllDigits(c) && AllDigits(d)
    ensures Parts(Dotted(a, b, c, d)) == [a, b, c, d]
  {
    hide Parts;
    PartsOne(a);
    PartsNext(a, [a], b);
    PartsNext(a + "." + b, [a] + [b], c);
    PartsNext(a + "." + b + "." + c, [a] + [b] + [c], d);
  }

  lemma PartsOne(a: string)
    requires AllDigits(a)
    ensures Parts(a) == [a]
  {
    PartsDigits("", a);
    assert "" + a == a;
  }

  /** An IPv4address of section 3.2.2 of RFC 3986. */
  predicate Rfc3986(ip: string) {
    var parts := Parts(ip);
    |parts| == 4 && forall i :: 0 <= i < 4 ==> DecOctet(parts[i])
  }

  /** Every IPv4address of RFC 3986 is accepted. The scanner accepts more: an accepted text
      is an IPv4address exactly when no part is empty or starts with a needless zero. */
  lemma AcceptsRfc3986(ip: string)
    ensures Rfc3986(ip) ==> Accepted(ip)
    ensures Accepted(ip) ==>
      (Rfc3986(ip) <==>
        forall i :: 0 <= i < 4 ==> Parts(ip)[i] != "" && (|Parts(ip)[i]| > 1 ==> Parts(ip)[i][0] != '0'))
  {
    var parts := Parts(ip);
    if |parts| == 4 {
      assert DecOctet(parts[3]) ==> parts[3] != "";
    }
  }

  /** A text of four digit parts, given its parts. */
  lemma AcceptedParts(ip: string, a: string, b: string, c: string, d: string)
    requires ip == Dotted(a, b, c, d)
    requires LoosePart(a) && LoosePart(b) && LoosePart(c) && LoosePart(d) && d != "" && !DecOctet(a)
    ensures Accepted(ip) && !Rfc3986(ip)
  {
    hide Parts;
    PartsDotted(a, b, c, d);
    assert Parts(ip) == [a, b, c, d];
    assert Parts(ip)[0] == a;
  }

  lemma ShortNumbers()
    ensures LoosePart("") && LoosePart("1") && LoosePart("00") && !DecOctet("") && !DecOctet("00")
  {
    assert Number("1") == 10 * Number("") + 1;
    assert Number("00") == 10 * Number("0") + 0;
    assert Number("0") == 10 * Number("") + 0;
  }

  /** Missing parts and leading zeros are accepted although RFC 3986 has neither. */
  lemma AcceptsMore()
    ensures Accepted("...1") && !Rfc3986("...1")
    ensures Accepted("00.1.1.1") && !Rfc3986("00.1.1.1")
  {
    hide Accepted, Rfc3986, LoosePart, DecOctet, Parts, Number;
    ShortNumbers();
    assert "...1" == Dotted("", "", "", "1");
    AcceptedParts("...1", "", "", "", "1");
    assert "00.1.1.1" == Dotted("00", "1", "1", "1");
    AcceptedParts("00.1.1.1", "00", "1", "1", "1");
  }
}
