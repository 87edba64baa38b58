/** The ride captions of frontend/src/FareResults.js: a service's display
    name followed by its class name spaced out before each capital letter and
    capitalised. */
module Labels {
  import opened Text

  /** The display name of a service: "uber" and "ola" by name, anything else RedTaxi. */
  function ServiceName(service: string): (name: string)
    ensures name in ["Uber", "Ola", "RedTaxi"]
    ensures name == "Uber" <==> Lower(service) == "uber"
    ensures name == "Ola" <==> Lower(service) == "ola"
  {
    var svc := Lower(service);
    if svc == "uber" then "Uber" else if svc == "ola" then "Ola" else "RedTaxi"
  }

  /** `.replace(/([A-Z])/g, " $1")`: a space before every capital letter. */
  function SpaceBeforeCapitals(t: string): (r: string)
    ensures r == [] || !IsUpperAscii(r[0])
  {
    if t == [] then []
    else (if IsUpperAscii(t[0]) then [' ', t[0]] else [t[0]]) + SpaceBeforeCapitals(t[1..])
  }

  /** Drops every space that stands right before a capital letter. */
  function DropSpacesBeforeCapitals(u: string): string
  {
    if u == [] then []
    else if |u| >= 2 && u[0] == ' ' && IsUpperAscii(u[1]) then DropSpacesBeforeCapitals(u[1..])
    else [u[0]] + DropSpacesBeforeCapitals(u[1..])
  }

  /** Spacing out a class name loses nothing: the original name can always be recovered. */
  lemma {:induction false} SpacingRoundTrip(t: string)
    ensures DropSpacesBeforeCapitals(SpaceBeforeCapitals(t)) == t
  {
    if t != [] {
      SpacingRoundTrip(t[1..]);
      var rest := SpaceBeforeCapitals(t[1..]);
      if IsUpperAscii(t[0]) {
        assert SpaceBeforeCapitals(t) == [' ', t[0]] + rest;
        assert ([' ', t[0]] + rest)[1..] == [t[0]] + rest;
        assert ([t[0]] + rest)[1..] == rest;
      } else {
        assert SpaceBeforeCapitals(t) == [t[0]] + rest;
        assert ([t[0]] + rest)[1..] == rest;
      }
    }
  }

  /** `.replace(/^./, s => s.toUpperCase())`: the first character upper-cased,
      unless it is a line terminator, which `.` does not match. */
  function CapitalizeFirst(s: string): (r: string)
    ensures |r| == |s| && (s != [] ==> r[1..] == s[1..])
    ensures s != [] && !IsLineTerminator(s[0]) ==> r[0] == UpperChar(s[0]) && !IsLowerAscii(r[0])
    ensures s == [] || IsLineTerminator(s[0]) ==> r == s
  {
    if s != [] && !IsLineTerminator(s[0]) then [UpperChar(s[0])] + s[1..] else s
  }

  /** `labelFor`: the service's display name, a space, and the spaced-out,
      capitalised class name. */
  function LabelFor(service: string, vehicle: string): (caption: string)
    ensures |caption| > |ServiceName(service)| && caption[..|ServiceName(service)| + 1] == ServiceName(service) + " "
    ensures caption[|ServiceName(service)| + 1..] == CapitalizeFirst(SpaceBeforeCapitals(vehicle))
  {
    ServiceName(service) + " " + CapitalizeFirst(SpaceBeforeCapitals(vehicle))
  }

  /** For a class name in camel case (starting with a small letter), the
      caption loses nothing: lower-casing the first letter of its class part
      and dropping the inserted spaces gives the class name back. */
  lemma LabelRecoversClass(service: string, vehicle: string)
    requires vehicle != [] && IsLowerAscii(vehicle[0])
    ensures var part := LabelFor(service, vehicle)[|ServiceName(service)| + 1..];
      part != [] && DropSpacesBeforeCapitals([LowerChar(part[0])] + part[1..]) == vehicle
  {
    var part := LabelFor(service, vehicle)[|ServiceName(service)| + 1..];
    var spaced := SpaceBeforeCapitals(vehicle);
    assert spaced == [vehicle[0]] + SpaceBeforeCapitals(vehicle[1..]);
    CaseRoundTrip(vehicle[0]);
    assert [LowerChar(part[0])] + part[1..] == spaced;
    SpacingRoundTrip(vehicle);
  }

  lemma {:induction false} SpaceBeforeCapitalsAppend(a: string, b: string)
    ensures SpaceBeforeCapitals(a + b) == SpaceBeforeCapitals(a) + SpaceBeforeCapitals(b)
  {
    if a == [] {
      assert a + b == b;
    } else {
      assert (a + b)[1..] == a[1..] + b;
      SpaceBeforeCapitalsAppend(a[1..], b);
    }
  }

  /** A camel-case class name is split into words. */
  lemma LabelOla()
    ensures LabelFor("ola", "primeSedan") == "Ola Prime Sedan"
  {
    var x, y := LabelFor("ola", "primeSedan"), "Ola Prime Sedan";
    OlaParts();
    assert |x| == |y|;
    forall i | 0 <= i < |x| ensures x[i] == y[i] {}
  }

  /** Every capital gets its own space, so "XL" becomes "X L". */
  lemma LabelUber()
    ensures LabelFor("uber", "uberXL") == "Uber Uber X L"
  {
    var x, y := LabelFor("uber", "uberXL"), "Uber Uber X L";
    UberParts();
    assert |x| == |y|;
    forall i | 0 <= i < |x| ensures x[i] == y[i] {}
  }

  /** Any service other than Uber and Ola is shown as RedTaxi. */
  lemma LabelRedTaxi()
    ensures LabelFor("redTaxi", "micro") == "RedTaxi Micro"
  {
    var x, y := LabelFor("redTaxi", "micro"), "RedTaxi Micro";
    RedTaxiParts();
    assert |x| == |y|;
    forall i | 0 <= i < |x| ensures x[i] == y[i] {}
  }

  lemma OlaParts()
    ensures LabelFor("ola", "primeSedan") == "Ola" + " " + "Prime Sedan"
  {
    LowersToSound("ola", "ola");
    assert ServiceName("ola") == "Ola";
    assert SpaceBeforeCapitals("primeSedan") == "prime Sedan";
    assert CapitalizeFirst("prime Sedan") == "Prime Sedan";
  }

  lemma UberParts()
    ensures LabelFor("uber", "uberXL") == "Uber" + " " + "Uber X L"
  {
    LowersToSound("uber", "uber");
    assert ServiceName("uber") == "Uber";
    assert SpaceBeforeCapitals("uberXL") == "uber X L";
    assert CapitalizeFirst("uber X L") == "Uber X L";
  }

  lemma RedTaxiParts()
    ensures LabelFor("redTaxi", "micro") == "RedTaxi" + " " + "Micro"
  {
    LowersToSound("redTaxi", "redtaxi");
    assert ServiceName("redTaxi") == "RedTaxi";
    assert SpaceBeforeCapitals("micro") == "micro";
    assert CapitalizeFirst("micro") == "Micro";
  }
}
