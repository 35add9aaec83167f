/** The manual-entry formats the newer revisions accept: five fields
    separated by `;`, each trimmed of surrounding white space. A passport is
    "Full name;Passport number;Date of birth;Issue date;Expiry date" with
    dd.MM.yyyy dates, a vehicle "VIN;Make;Model;Year;Registration number". */
module ManualEntry {
  import opened Wrappers
  import Text
  import Numbers
  import Dates
  import opened Models

  const Separator := ';'
  const FieldCount := 5

  /** `text.Split(';', StringSplitOptions.TrimEntries)`. */
  function Fields(text: string): (f: seq<string>)
    ensures |f| == Text.Count(text, Separator) + 1
    ensures forall i :: 0 <= i < |f| ==> Text.IsTrimmed(f[i])
  {
    Text.SplitTrimmed(text, Separator)
  }

  /** The passport record the three `ParseExact` calls build; `None` when any
      of them throws `FormatException`. A built record reads back as the
      fields that were typed. */
  function PassportFromFields(f: seq<string>): (r: Option<PassportData>)
    requires |f| == FieldCount
    ensures r.Some? <==> Dates.ParseExact(f[2]).Some? && Dates.ParseExact(f[3]).Some? && Dates.ParseExact(f[4]).Some?
    ensures r.Some? ==> r.value.fullName == Some(f[0]) && r.value.passportNumber == Some(f[1])
    ensures r.Some? ==> && Dates.IsValid(r.value.dateOfBirth) && Dates.Format(r.value.dateOfBirth) == f[2]
                        && Dates.IsValid(r.value.issueDate) && Dates.Format(r.value.issueDate) == f[3]
                        && Dates.IsValid(r.value.expiryDate) && Dates.Format(r.value.expiryDate) == f[4]
  {
    var dob, issue, expiry := Dates.ParseExact(f[2]), Dates.ParseExact(f[3]), Dates.ParseExact(f[4]);
    if dob.None? || issue.None? || expiry.None? then Option.None
    else Some(PassportData(Some(f[0]), Some(f[1]), dob.value, issue.value, expiry.value))
  }

  /** The range checks of the newest revision: birth and issue in a year
      from 1900 to the current one, issue not before birth, expiry in a year
      from 1900 on and strictly after issue. */
  predicate PassportDatesPlausible(p: PassportData, currentYear: int) {
    && 1900 <= p.dateOfBirth.year <= currentYear
    && 1900 <= p.issueDate.year <= currentYear
    && !Dates.Before(p.issueDate, p.dateOfBirth)
    && 1900 <= p.expiryDate.year
    && Dates.Before(p.issueDate, p.expiryDate)
  }

  /** The vehicle record `int.Parse` lets through, or the exception it
      throws for the year field. */
  function VehicleFromFields(f: seq<string>): (r: Result<VehicleData, Numbers.ParseError>)
    requires |f| == FieldCount
    ensures r.Ok? <==> Numbers.ParseInt32(f[3]).Ok?
    ensures r.Err? ==> r.error == Numbers.ParseInt32(f[3]).error
    ensures r.Ok? ==> && r.value.vin == Some(f[0]) && r.value.make == Some(f[1]) && r.value.model == Some(f[2])
                      && r.value.registrationNumber == Some(f[4])
                      && r.value.year.Some? && Numbers.InInt32(r.value.year.value)
  {
    match Numbers.ParseInt32(f[3])
    case Err(e) => Err(e)
    case Ok(year) => Ok(VehicleData(Some(f[0]), Some(f[1]), Some(f[2]), Some(year), Some(f[4])))
  }

  /** The year check of the newest revision. */
  predicate VehicleYearPlausible(year: int, currentYear: int) {
    1900 <= year <= currentYear
  }

  /** A field the format can carry: no separator and no white space at
      either end. */
  predicate IsField(s: string) {
    Separator !in s && Text.IsTrimmed(s)
  }

  /** The text a user types for a passport record. */
  function PassportLine(p: PassportData): string
    requires p.fullName.Some? && p.passportNumber.Some?
    requires Dates.IsValid(p.dateOfBirth) && Dates.IsValid(p.issueDate) && Dates.IsValid(p.expiryDate)
  {
    Text.Join([p.fullName.value, p.passportNumber.value,
      Dates.Format(p.dateOfBirth), Dates.Format(p.issueDate), Dates.Format(p.expiryDate)], Separator)
  }

  /** The text a user types for a complete vehicle record. */
  function VehicleLine(v: VehicleData): string
    requires v.vin.Some? && v.make.Some? && v.model.Some? && v.year.Some? && v.registrationNumber.Some?
  {
    Text.Join([v.vin.value, v.make.value, v.model.value, Numbers.Show(v.year.value), v.registrationNumber.value], Separator)
  }

  lemma FormatIsField(d: Dates.Date)
    requires Dates.IsValid(d)
    ensures IsField(Dates.Format(d))
  {
    var s := Dates.Format(d);
    assert forall i :: 0 <= i < |s| ==> s[i] != Separator;
  }

  lemma ShowIsField(n: int)
    ensures IsField(Numbers.Show(n))
  {
    var s := Numbers.Show(n);
    assert s[0] == '-' || Numbers.IsDigit(s[0]);
    assert Numbers.IsDigit(s[|s| - 1]);
    assert forall i :: 0 <= i < |s| ==> s[i] == '-' || Numbers.IsDigit(s[i]);
  }

  /** Every passport record with clean name fields and valid dates can be
      typed: its line splits into five fields that build exactly it. */
  lemma PassportLineRoundTrip(p: PassportData)
    requires p.fullName.Some? && IsField(p.fullName.value)
    requires p.passportNumber.Some? && IsField(p.passportNumber.value)
    requires Dates.IsValid(p.dateOfBirth) && Dates.IsValid(p.issueDate) && Dates.IsValid(p.expiryDate)
    ensures |Fields(PassportLine(p))| == FieldCount
    ensures PassportFromFields(Fields(PassportLine(p))) == Some(p)
  {
    var dob, issue, expiry := Dates.Format(p.dateOfBirth), Dates.Format(p.issueDate), Dates.Format(p.expiryDate);
    var parts := [p.fullName.value, p.passportNumber.value, dob, issue, expiry];
    FieldsOfJoin(parts) by {
      FormatIsField(p.dateOfBirth);
      FormatIsField(p.issueDate);
      FormatIsField(p.expiryDate);
    }
    assert PassportLine(p) == Text.Join(parts, Separator);
    Dates.ParseFormat(p.dateOfBirth);
    Dates.ParseFormat(p.issueDate);
    Dates.ParseFormat(p.expiryDate);
  }

  lemma FieldsOfJoin(parts: seq<string>)
    requires |parts| == FieldCount
    requires IsField(parts[0]) && IsField(parts[1]) && IsField(parts[2]) && IsField(parts[3]) && IsField(parts[4])
    ensures Fields(Text.Join(parts, Separator)) == parts
  {
    assert forall i :: 0 <= i < |parts| ==> IsField(parts[i]);
    Text.SplitTrimmedOfJoin(parts, Separator);
  }

  /** Every complete vehicle record with clean text fields and a 32-bit year
      can be typed: its line splits into five fields that build exactly it. */
  lemma VehicleLineRoundTrip(v: VehicleData)
    requires v.vin.Some? && IsField(v.vin.value)
    requires v.make.Some? && IsField(v.make.value)
    requires v.model.Some? && IsField(v.model.value)
    requires v.year.Some? && Numbers.InInt32(v.year.value)
    requires v.registrationNumber.Some? && IsField(v.registrationNumber.value)
    ensures |Fields(VehicleLine(v))| == FieldCount
    ensures VehicleFromFields(Fields(VehicleLine(v))) == Ok(v)
  {
    var parts := [v.vin.value, v.make.value, v.model.value, Numbers.Show(v.year.value), v.registrationNumber.value];
    ShowIsField(v.year.value);
    FieldsOfJoin(parts);
    Numbers.ParseShow(v.year.value);
  }

  /** A year outside the 32-bit range is a well-formed number that
      `int.Parse` refuses with `OverflowException`, not `FormatException`. */
  lemma OverflowingYear(f: seq<string>, year: int)
    requires |f| == FieldCount && f[3] == Numbers.Show(year) && !Numbers.InInt32(year)
    ensures VehicleFromFields(f) == Err(Numbers.OverflowError)
  {
    Numbers.ParseShowOverflow(year);
  }
}
