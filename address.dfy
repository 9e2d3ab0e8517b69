/**
 * address.go: rendering a customer address as one line.
 */
module Addresses {
  import opened Format

  /** `Address`, with its fields in declaration order. */
  datatype Address = Address(
    line1: string, line2: string, line3: string, line4: string,
    country: string, zipCode: string, city: string)

  /** A part on its own, or nothing when it is empty. */
  function Keep(x: string): (r: seq<string>)
    ensures x != "" <==> r == [x]
    ensures x == "" <==> r == []
  {
    if x != "" then [x] else []
  }

  /** The parts of `xs` that are not empty, in order. */
  function Present(xs: seq<string>): (r: seq<string>)
    ensures |r| <= |xs|
    ensures forall i :: 0 <= i < |r| ==> r[i] != ""
    ensures forall x :: x in r ==> x in xs
  {
    if xs == [] then [] else Keep(xs[0]) + Present(xs[1..])
  }

  /** Zip code and city as one part: "zip city" when both are given, otherwise whichever is given. */
  function Locality(zipCode: string, city: string): string
  {
    if zipCode != "" && city != "" then zipCode + " " + city else zipCode + city
  }

  /** The parts of the one-line address: the four lines, the locality and the country, each only when given. */
  function Segments(a: Address): seq<string>
  {
    Present([a.line1, a.line2, a.line3, a.line4, Locality(a.zipCode, a.city), a.country])
  }

  /** The parts, one field at a time. */
  lemma SegmentsUnfold(a: Address)
    ensures Segments(a) == Keep(a.line1) + (Keep(a.line2) + (Keep(a.line3) + (Keep(a.line4)
                         + (Keep(Locality(a.zipCode, a.city)) + Keep(a.country)))))
  {
    var all := [a.line1, a.line2, a.line3, a.line4, Locality(a.zipCode, a.city), a.country];
    assert all[5..][1..] == [];
    assert Present(all[5..]) == Keep(a.country);
    assert all[4..][1..] == all[5..];
    assert Present(all[4..]) == Keep(Locality(a.zipCode, a.city)) + Keep(a.country);
    assert all[3..][1..] == all[4..];
    assert Present(all[3..]) == Keep(a.line4) + Present(all[4..]);
    assert all[2..][1..] == all[3..];
    assert Present(all[2..]) == Keep(a.line3) + Present(all[3..]);
    assert all[1..][1..] == all[2..];
    assert Present(all[1..]) == Keep(a.line2) + Present(all[2..]);
    assert Present(all) == Keep(a.line1) + Present(all[1..]);
  }

  lemma Regroup(p1: seq<string>, p2: seq<string>, p3: seq<string>, p4: seq<string>, p5: seq<string>, p6: seq<string>)
    ensures p1 + p2 + p3 + p4 + p5 + p6 == p1 + (p2 + (p3 + (p4 + (p5 + p6))))
  {
  }

  /**
   * `Address.String`: collects the parts step by step as the source does and
   * joins them with ", "; the result is the join of `Segments`.
   */
  method String(a: Address) returns (s: string)
    ensures s == Join(Segments(a), ", ")
  {
    var addrLines: seq<string> := [];
    if a.line1 != "" {
      addrLines := addrLines + [a.line1];
    }
    if a.line2 != "" {
      addrLines := addrLines + [a.line2];
    }
    if a.line3 != "" {
      addrLines := addrLines + [a.line3];
    }
    if a.line4 != "" {
      addrLines := addrLines + [a.line4];
    }
    assert addrLines == Keep(a.line1) + Keep(a.line2) + Keep(a.line3) + Keep(a.line4);
    ghost var lines := addrLines;
    LocalityParts(a.zipCode, a.city);
    if a.zipCode != "" && a.city != "" {
      addrLines := addrLines + [a.zipCode + " " + a.city];
    } else {
      if a.zipCode != "" {
        addrLines := addrLines + [a.zipCode];
      }
      ghost var zip := addrLines;
      assert zip == lines + Keep(a.zipCode);
      if a.city != "" {
        addrLines := addrLines + [a.city];
      }
      assert addrLines == zip + Keep(a.city);
    }
    assert addrLines == lines + Keep(Locality(a.zipCode, a.city));
    ghost var located := addrLines;
    if a.country != "" {
      addrLines := addrLines + [a.country];
    }
    assert addrLines == located + Keep(a.country);
    SegmentsFromParts(a, addrLines);
    s := Join(addrLines, ", ");
  }

  /** The parts, collected one after another, are the segments. */
  lemma SegmentsFromParts(a: Address, parts: seq<string>)
    requires parts == Keep(a.line1) + Keep(a.line2) + Keep(a.line3) + Keep(a.line4)
                      + Keep(Locality(a.zipCode, a.city)) + Keep(a.country)
    ensures parts == Segments(a)
  {
    SegmentsUnfold(a);
    Regroup(Keep(a.line1), Keep(a.line2), Keep(a.line3), Keep(a.line4), Keep(Locality(a.zipCode, a.city)), Keep(a.country));
  }

  /** The locality part: "zip city" when both are given, otherwise whichever of the two is given. */
  lemma LocalityParts(zipCode: string, city: string)
    ensures zipCode != "" && city != "" ==> Keep(Locality(zipCode, city)) == [zipCode + " " + city]
    ensures zipCode == "" || city == "" ==> Keep(Locality(zipCode, city)) == Keep(zipCode) + Keep(city)
  {
    assert zipCode + "" == zipCode && "" + city == city;
  }

  /** An empty address renders as the empty string. */
  lemma EmptyAddress()
    ensures Join(Segments(Address("", "", "", "", "", "", "")), ", ") == ""
  {
    SegmentsUnfold(Address("", "", "", "", "", "", ""));
  }

  /** No part is empty, so an empty field never leaves an empty slot between separators. */
  lemma SegmentsNonEmpty(a: Address)
    ensures forall i :: 0 <= i < |Segments(a)| ==> Segments(a)[i] != ""
  {
  }

  /** A given country is always the last part. */
  lemma CountryLast(a: Address)
    requires a.country != ""
    ensures |Segments(a)| >= 1 && Segments(a)[|Segments(a)| - 1] == a.country
  {
    SegmentsUnfold(a);
  }

  /** With both zip code and city given, the part before the country is "zip city". */
  lemma ZipAndCityMerge(a: Address)
    requires a.zipCode != "" && a.city != ""
    ensures var s := Segments(a); var k := if a.country != "" then 2 else 1;
      |s| >= k && s[|s| - k] == a.zipCode + " " + a.city
  {
    SegmentsUnfold(a);
  }

  /** With only one of zip code and city given, that value alone is the locality part. */
  lemma LocalityAlone(zipCode: string, city: string)
    requires zipCode == "" || city == ""
    ensures Locality(zipCode, city) == if zipCode != "" then zipCode else city
  {
    assert zipCode + "" == zipCode && "" + city == city;
  }

  /** The address of one of the source's own examples, with three lines, zip code, city and country. */
  lemma FullAddressExample()
    ensures Join(Segments(Address("c/o Test Testesen", "Testerstreet 1", "PO 13371337", "", "Norway", "1337", "Sandvika")), ", ")
         == "c/o Test Testesen, Testerstreet 1, PO 13371337, 1337 Sandvika, Norway"
  {
    var a := Address("c/o Test Testesen", "Testerstreet 1", "PO 13371337", "", "Norway", "1337", "Sandvika");
    var loc := Locality(a.zipCode, a.city);
    LocalityExample(a.zipCode, a.city);
    SegmentsUnfold(a);
    var parts := [a.line1, a.line2, a.line3, loc, a.country];
    assert Segments(a) == parts;
    JoinFive(parts, ", ");
    LiteralJoin(a.line1, a.line2, a.line3, loc, a.country);
  }

  lemma LocalityExample(zipCode: string, city: string)
    requires zipCode == "1337" && city == "Sandvika"
    ensures Locality(zipCode, city) == "1337 Sandvika"
  {
  }

  lemma JoinFive(p: seq<string>, sep: string)
    requires |p| == 5
    ensures Join(p, sep) == p[0] + sep + p[1] + sep + p[2] + sep + p[3] + sep + p[4]
  {
    JoinSnoc(p[..1], p[1], sep);
    assert p[..2] == p[..1] + [p[1]];
    JoinSnoc(p[..2], p[2], sep);
    assert p[..3] == p[..2] + [p[2]];
    JoinSnoc(p[..3], p[3], sep);
    assert p[..4] == p[..3] + [p[3]];
    JoinSnoc(p[..4], p[4], sep);
    assert p == p[..4] + [p[4]];
  }

  lemma LiteralJoin(l1: string, l2: string, l3: string, loc: string, country: string)
    requires l1 == "c/o Test Testesen" && l2 == "Testerstreet 1" && l3 == "PO 13371337"
    requires loc == "1337 Sandvika" && country == "Norway"
    ensures l1 + ", " + l2 + ", " + l3 + ", " + loc + ", " + country
         == "c/o Test Testesen, Testerstreet 1, PO 13371337, 1337 Sandvika, Norway"
  {
    assert l1 + ", " == "c/o Test Testesen, ";
    assert l1 + ", " + l2 == "c/o Test Testesen, Testerstreet 1";
    assert l1 + ", " + l2 + ", " == "c/o Test Testesen, Testerstreet 1, ";
    assert l1 + ", " + l2 + ", " + l3 == "c/o Test Testesen, Testerstreet 1, PO 13371337";
    assert l1 + ", " + l2 + ", " + l3 + ", " == "c/o Test Testesen, Testerstreet 1, PO 13371337, ";
    assert l1 + ", " + l2 + ", " + l3 + ", " + loc == "c/o Test Testesen, Testerstreet 1, PO 13371337, 1337 Sandvika";
    assert l1 + ", " + l2 + ", " + l3 + ", " + loc + ", " == "c/o Test Testesen, Testerstreet 1, PO 13371337, 1337 Sandvika, ";
  }
}
