/** The labels of the administrator dashboard's user card
    (`src/app/admin/dashboard/components/UserCard.js`). */
module UserCard {
  import opened Options
  import opened Text

  const NameLimit: nat := 20
  const Ellipsis: string := "..."
  const NoName: string := "No Name"
  const DefaultInitial: string := "U"

  /** `full_name?.[0]?.toUpperCase() || 'U'`: one character, the name's
      first one uppercased, or `U` when the name is missing or empty. */
  function Initials(fullName: Option<string>): (r: string)
    ensures |r| == 1
    ensures !Truthy(fullName) ==> r == DefaultInitial
    ensures Truthy(fullName) ==> r[0] == UpperChar(fullName.value[0])
  {
    if Truthy(fullName) then Upper(fullName.value[..1]) else DefaultInitial
  }

  /** `full_name || 'No Name'`: never empty. */
  function DisplayName(fullName: Option<string>): (r: string)
    ensures r != []
    ensures Truthy(fullName) ==> r == fullName.value
    ensures !Truthy(fullName) ==> r == NoName
  {
    OrElse(fullName, NoName)
  }

  /** Names up to twenty characters are shown whole; longer ones keep their
      first twenty and gain an ellipsis, so at most 23 characters show and
      what shows always starts like the name. */
  function Truncated(name: string): (r: string)
    ensures |r| <= NameLimit + |Ellipsis|
    ensures |name| <= NameLimit ==> r == name
    ensures |name| > NameLimit ==> |r| == NameLimit + |Ellipsis| && r[NameLimit..] == Ellipsis
    ensures |name| > NameLimit ==> r[..NameLimit] == name[..NameLimit]
  {
    if |name| > NameLimit then name[..NameLimit] + Ellipsis else name
  }

  /** Truncation is idempotent: a shown name is shown unchanged. */
  lemma TruncatedIdempotent(name: string)
    ensures Truncated(Truncated(name)) == Truncated(name)
  {
    var r := Truncated(name);
    if |name| > NameLimit {
      assert r[..NameLimit] == name[..NameLimit];
    }
  }

  datatype ChipColor = Primary | Default

  datatype Chip = Chip(text: string, color: ChipColor)

  /** The role chip: the role in capitals, primary colour for administrators. */
  function RoleChip(role: string): (c: Chip)
    ensures |c.text| == |role|
    ensures forall i :: 0 <= i < |role| ==> c.text[i] == UpperChar(role[i])
    ensures c.color == Primary <==> role == "admin"
  {
    Chip(Upper(role), if role == "admin" then Primary else Default)
  }
}
