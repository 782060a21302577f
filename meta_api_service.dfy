/**
 * Lead-field extraction of the ads-platform adapter
 * (`extractLeadInfo` in src/services/metaApiService.ts): turns a lead's
 * form answers into the name, email and phone of a new client.
 */
module MetaApiService {

  import opened Types
  import opened Seqs
  import opened Strings

  /** The field's lower-cased name contains the lower-cased key. */
  predicate FieldMatches(f: MetaLeadFieldData, fieldName: string)
  {
    Includes(Lower(f.name), Lower(fieldName))
  }

  /**
   * `field.values[0]`. A field without values yields `undefined`, which
   * every caller treats as it treats the empty string.
   */
  function FirstValue(f: MetaLeadFieldData): string
  {
    if |f.values| == 0 then "" else f.values[0]
  }

  /**
   * `getFieldValue`: the first value of the first field whose name
   * matches, or the empty string when none does.
   */
  function GetFieldValue(fields: seq<MetaLeadFieldData>, fieldName: string): (v: string)
    ensures (forall i :: 0 <= i < |fields| ==> !FieldMatches(fields[i], fieldName)) ==> v == ""
    ensures forall i ::
      (0 <= i < |fields| && FieldMatches(fields[i], fieldName)
       && forall j :: 0 <= j < i ==> !FieldMatches(fields[j], fieldName))
      ==> v == FirstValue(fields[i])
  {
    var k := FindIndex(fields, (f: MetaLeadFieldData) => FieldMatches(f, fieldName));
    if k == -1 then "" else FirstValue(fields[k])
  }

  /** Once some field matches, fields after it are never consulted. */
  lemma LaterFieldsIgnored(fields: seq<MetaLeadFieldData>, later: seq<MetaLeadFieldData>, fieldName: string)
    requires exists i :: 0 <= i < |fields| && FieldMatches(fields[i], fieldName)
    ensures GetFieldValue(fields + later, fieldName) == GetFieldValue(fields, fieldName)
  {
    var all := fields + later;
    var k := FindIndex(fields, (f: MetaLeadFieldData) => FieldMatches(f, fieldName));
    assert forall j :: 0 <= j < k ==> all[j] == fields[j];
    assert all[k] == fields[k];
  }

  /** The name: the full-name answer, else first and last name joined, else "N/A". */
  function LeadName(fields: seq<MetaLeadFieldData>): string
  {
    var fullName := GetFieldValue(fields, "full_name");
    var name :=
      if fullName != "" then fullName
      else JoinNonEmpty([GetFieldValue(fields, "first_name"), GetFieldValue(fields, "last_name")]);
    if name != "" then name else "N/A"
  }

  /** `extractLeadInfo`. */
  function ExtractLeadInfo(lead: MetaLead): (info: LeadInfo)
    ensures info.leadId == lead.id
    ensures info.name != "" && info.email != "" && info.phone != ""
    ensures var full := GetFieldValue(lead.fieldData, "full_name");
      var first := GetFieldValue(lead.fieldData, "first_name");
      var last := GetFieldValue(lead.fieldData, "last_name");
      && (full != "" ==> info.name == full)
      && (full == "" && first != "" && last != "" ==> info.name == first + " " + last)
      && (full == "" && first != "" && last == "" ==> info.name == first)
      && (full == "" && first == "" && last != "" ==> info.name == last)
      && (full == "" && first == "" && last == "" ==> info.name == "N/A")
    ensures var email := GetFieldValue(lead.fieldData, "email");
      info.email == if email != "" then email else "no-email-" + lead.id + "@example.com"
    ensures var phone := GetFieldValue(lead.fieldData, "phone");
      info.phone == if phone != "" then phone else "N/A"
  {
    JoinTwo(GetFieldValue(lead.fieldData, "first_name"), GetFieldValue(lead.fieldData, "last_name"));
    var email := GetFieldValue(lead.fieldData, "email");
    var phone := GetFieldValue(lead.fieldData, "phone");
    LeadInfo(
      LeadName(lead.fieldData),
      if email != "" then email else "no-email-" + lead.id + "@example.com",
      if phone != "" then phone else "N/A",
      lead.id)
  }
}
