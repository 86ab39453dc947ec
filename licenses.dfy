/**
 * The third-party licence dialog: the npm and cargo licence reports are
 * normalised to one record shape with defaults for missing fields, entries
 * without a name or version are dropped, each list is ordered by name, and a
 * single entry at a time can be expanded.
 */
module Licenses {
  import opened Basics
  import Strings
  import Seqs
  import Sorting

  /** One row of either list. */
  datatype License = License(name: string, version: string, licenses: string, licenseText: string)

  /** An npm report entry; a missing or falsy field is `""`. */
  datatype NpmInfo = NpmInfo(name: string, version: string, licenses: string, licenseText: string)

  /** A cargo report entry with the texts of its licence files. */
  datatype CargoLibrary = CargoLibrary(packageName: string, packageVersion: string, license: string, texts: seq<string>)

  /** The decoded report: npm entries in key order, and the cargo library list when there is one. */
  datatype LicenseData = LicenseData(npm: seq<NpmInfo>, cargo: Option<seq<CargoLibrary>>)

  const UnknownLicense: string := "Unknown"
  const NoLicenseText: string := "License text not available"

  /** `a || b` on strings. */
  function Or(a: string, b: string): (r: string)
    ensures a != "" ==> r == a
    ensures a == "" ==> r == b
  {
    if a != "" then a else b
  }

  /** The npm entry as a row: the licence and its text fall back to their defaults. */
  function FromNpm(info: NpmInfo): (l: License)
    ensures l.name == info.name && l.version == info.version
    ensures l.licenses != "" && l.licenseText != ""
  {
    License(info.name, info.version, Or(info.licenses, UnknownLicense), Or(info.licenseText, NoLicenseText))
  }

  /** The cargo entry as a row: its licence texts joined by newlines, or the default when that is empty. */
  function FromCargo(lib: CargoLibrary): (l: License)
    ensures l.name == lib.packageName && l.version == lib.packageVersion
    ensures l.licenses != "" && l.licenseText != ""
  {
    License(lib.packageName, lib.packageVersion, Or(lib.license, UnknownLicense),
            Or(Strings.Join(lib.texts, "\n"), NoLicenseText))
  }

  function MapNpm(s: seq<NpmInfo>): (r: seq<License>)
    ensures |r| == |s| && forall k :: 0 <= k < |s| ==> r[k] == FromNpm(s[k])
  {
    if s == [] then [] else [FromNpm(s[0])] + MapNpm(s[1..])
  }

  function MapCargo(s: seq<CargoLibrary>): (r: seq<License>)
    ensures |r| == |s| && forall k :: 0 <= k < |s| ==> r[k] == FromCargo(s[k])
  {
    if s == [] then [] else [FromCargo(s[0])] + MapCargo(s[1..])
  }

  /** `l.name && l.version`. */
  predicate Listed(l: License)
  {
    l.name != "" && l.version != ""
  }

  /** Lexicographic order on code points, standing for `localeCompare(..) < 0`. */
  predicate NameBefore(a: string, b: string)
  {
    if a == [] then b != []
    else if b == [] then false
    else if a[0] != b[0] then a[0] < b[0]
    else NameBefore(a[1..], b[1..])
  }

  /** The comparator both lists are sorted with. */
  predicate ByName(a: License, b: License)
  {
    NameBefore(a.name, b.name)
  }

  /** Filter out unlisted rows, then sort by name. */
  function Arrange(rows: seq<License>): seq<License>
  {
    Sorting.Sort(Seqs.Filter(rows, Listed), ByName)
  }

  function NpmLicenses(data: LicenseData): seq<License>
  {
    Arrange(MapNpm(data.npm))
  }

  function CargoLicenses(data: LicenseData): seq<License>
  {
    match data.cargo
    case None => []
    case Some(libs) => Arrange(MapCargo(libs))
  }

  // ----- Properties -----

  lemma {:induction false} NameBeforeIrreflexive(a: string)
    ensures !NameBefore(a, a)
    decreases |a|
  {
    if a != [] {
      NameBeforeIrreflexive(a[1..]);
    }
  }

  lemma {:induction false} NameBeforeTransitive(a: string, b: string, c: string)
    requires NameBefore(a, b) && NameBefore(b, c)
    ensures NameBefore(a, c)
    decreases |a|
  {
    if a != [] && b != [] && c != [] && a[0] == b[0] && b[0] == c[0] {
      NameBeforeTransitive(a[1..], b[1..], c[1..]);
    }
  }

  /** Of two different names exactly one comes first: the order is total. */
  lemma {:induction false} NameBeforeTotal(a: string, b: string)
    requires a != b
    ensures NameBefore(a, b) != NameBefore(b, a)
    decreases |a|
  {
    if a != [] && b != [] && a[0] == b[0] {
      assert a == [a[0]] + a[1..] && b == [b[0]] + b[1..];
      NameBeforeTotal(a[1..], b[1..]);
    }
  }

  lemma ByNameStrictOrder()
    ensures Sorting.StrictOrder(ByName)
  {
    forall l: License
      ensures !ByName(l, l)
    {
      NameBeforeIrreflexive(l.name);
    }
    forall a: License, b: License, c: License | ByName(a, b) && ByName(b, c)
      ensures ByName(a, c)
    {
      NameBeforeTransitive(a.name, b.name, c.name);
    }
  }

  /**
   * Each list is ordered by name, is a permutation of the listed rows, and every
   * row in it has a name, a version, a licence and a licence text.
   */
  lemma Arranged(rows: seq<License>)
    requires forall k :: 0 <= k < |rows| ==> rows[k].licenses != "" && rows[k].licenseText != ""
    ensures Sorting.Sorted(Arrange(rows), ByName)
    ensures multiset(Arrange(rows)) == multiset(Seqs.Filter(rows, Listed))
    ensures forall k :: 0 <= k < |Arrange(rows)| ==>
              var l := Arrange(rows)[k];
              Listed(l) && l.licenses != "" && l.licenseText != "" && l in rows
  {
    ByNameStrictOrder();
    Sorting.SortSorted(Seqs.Filter(rows, Listed), ByName);
    var f := Seqs.Filter(rows, Listed);
    forall k | 0 <= k < |Arrange(rows)|
      ensures Listed(Arrange(rows)[k]) && Arrange(rows)[k] in rows
    {
      assert Arrange(rows)[k] in multiset(f);
    }
  }

  /** A row is listed exactly as often as it was reported with a name and a version. */
  lemma ArrangedKeeps(rows: seq<License>, l: License)
    ensures multiset(Arrange(rows))[l] == if Listed(l) then multiset(rows)[l] else 0
  {
    FilterCount(rows, l);
  }

  lemma {:induction false} FilterCount(rows: seq<License>, l: License)
    ensures multiset(Seqs.Filter(rows, Listed))[l] == if Listed(l) then multiset(rows)[l] else 0
    decreases |rows|
  {
    if rows != [] {
      assert rows == [rows[0]] + rows[1..];
      Seqs.FilterAppend([rows[0]], rows[1..], Listed);
      FilterCount(rows[1..], l);
    }
  }

  lemma NpmRows(data: LicenseData)
    ensures Sorting.Sorted(NpmLicenses(data), ByName)
    ensures forall k :: 0 <= k < |NpmLicenses(data)| ==> Listed(NpmLicenses(data)[k])
  {
    Arranged(MapNpm(data.npm));
  }

  /** A cargo library without licence files, or whose only file is empty, shows the default text. */
  lemma CargoWithoutText(lib: CargoLibrary)
    requires lib.texts == [] || lib.texts == [""]
    ensures FromCargo(lib).licenseText == NoLicenseText
  {
  }

  /** With two or more licence files the text is never the default: the newline separator is there. */
  lemma CargoJoinedText(lib: CargoLibrary)
    requires |lib.texts| >= 2
    ensures FromCargo(lib).licenseText == Strings.Join(lib.texts, "\n")
    ensures '\n' in FromCargo(lib).licenseText
  {
    var j := Strings.Join(lib.texts, "\n");
    assert j == lib.texts[0] + "\n" + Strings.Join(lib.texts[1..], "\n");
    assert j[|lib.texts[0]|] == '\n';
  }

  // ----- The dialog -----

  /** The body of the inner `try`: both lists built from a decoded report. */
  method Normalise(data: LicenseData) returns (npm: seq<License>, cargo: seq<License>)
    ensures npm == NpmLicenses(data) && cargo == CargoLicenses(data)
  {
    var npmLicenses := MapNpm(data.npm);
    var cargoLicenses: seq<License> := [];
    if data.cargo.Some? {
      cargoLicenses := cargoLicenses + MapCargo(data.cargo.value);
      assert cargoLicenses == MapCargo(data.cargo.value);
    }
    npm := Arrange(npmLicenses);
    cargo := Arrange(cargoLicenses);
  }

  /** What the licence command gave back. */
  datatype Fetch =
    | Threw                                    // the command call raised an exception
    | Returned(ok: bool, decoded: Option<LicenseData>)  // ok when both status fields are "ok"; None when JSON.parse throws

  /** The key of an entry in a tab: `<tab>-<name>-<version>`. */
  function LicenseKey(tab: string, l: License): string
  {
    tab + "-" + l.name + "-" + l.version
  }

  /** The checkbox handler: the entry closes if it is the open one, otherwise it opens in place of the open one. */
  function Toggle(expanded: Option<string>, key: string): (r: Option<string>)
    ensures r == Some(key) <==> expanded != Some(key)
    ensures r.Some? ==> r.value == key
  {
    if expanded == Some(key) then None else Some(key)
  }

  /** Toggling the same entry twice closes it, unless it was the open one, which stays open. */
  lemma ToggleTwice(expanded: Option<string>, key: string)
    ensures Toggle(Toggle(expanded, key), key) == if expanded == Some(key) then Some(key) else None
  {
  }

  /** The dialog's state. */
  class LicenseDialog {
    var npm: seq<License>
    var cargo: seq<License>
    var expandedLicense: Option<string>
    var isLoading: bool

    constructor()
      ensures npm == [] && cargo == [] && expandedLicense == None && isLoading
    {
      npm, cargo := [], [];
      expandedLicense := None;
      isLoading := true;
    }

    /**
     * `fetchLicenses`: on success both lists are normalised from the report; a
     * failed call or an undecodable report empties them; a non-ok result leaves
     * them as they were. Loading ends in every case.
     */
    method FetchLicenses(fetch: Fetch)
      modifies this
      ensures fetch.Threw? ==> npm == [] && cargo == []
      ensures fetch.Returned? && fetch.ok && fetch.decoded.None? ==> npm == [] && cargo == []
      ensures fetch.Returned? && fetch.ok && fetch.decoded.Some? ==>
                npm == NpmLicenses(fetch.decoded.value) && cargo == CargoLicenses(fetch.decoded.value)
      ensures fetch.Returned? && !fetch.ok ==> npm == old(npm) && cargo == old(cargo)
      ensures !isLoading && expandedLicense == old(expandedLicense)
    {
      match fetch {
        case Threw =>
          npm, cargo := [], [];
        case Returned(ok, decoded) =>
          if ok {
            match decoded {
              case None =>
                npm, cargo := [], [];
              case Some(data) =>
                npm, cargo := Normalise(data);
            }
          }
      }
      isLoading := false;
    }

    /** The checkbox of the entry with `key` changed. */
    method ToggleLicense(key: string)
      modifies this
      ensures expandedLicense == Toggle(old(expandedLicense), key)
      ensures npm == old(npm) && cargo == old(cargo) && isLoading == old(isLoading)
    {
      expandedLicense := if expandedLicense == Some(key) then None else Some(key);
    }
  }
}
