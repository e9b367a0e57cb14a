/**
 * The display helpers of src/lib/utils.ts that compute strings:
 * the avatar fallback, the initials and text truncation.
 */
module Utils {
  import opened Wrappers
  import opened Js

  const PlaceholderAvatar := "/avatars/placeholder.svg"

  /** getAvatarUrl: a non-empty avatar that does not mention "placeholder", else the placeholder image. */
  function GetAvatarUrl(avatar: Option<string>, name: Option<string>): (r: string)
    ensures r == PlaceholderAvatar || (avatar.Some? && r == avatar.value)
    ensures r != PlaceholderAvatar ==> !Includes(r, "placeholder") && r != ""
    ensures avatar.Some? && avatar.value != "" && !Includes(avatar.value, "placeholder") ==> r == avatar.value
  {
    if avatar.Some? && avatar.value != "" && !Includes(avatar.value, "placeholder") then avatar.value
    else PlaceholderAvatar
  }

  /** The placeholder image is itself recognised as a placeholder. */
  lemma PlaceholderIsPlaceholder()
    ensures Includes(PlaceholderAvatar, "placeholder")
  {
    assert OccursAt(PlaceholderAvatar, "placeholder", 9);
    IncludesIff(PlaceholderAvatar, "placeholder");
  }

  /** Resolving an already resolved avatar changes nothing, and an avatar mentioning "placeholder" is replaced. */
  lemma GetAvatarUrlIdempotent(avatar: Option<string>, name: Option<string>)
    ensures GetAvatarUrl(Some(GetAvatarUrl(avatar, name)), name) == GetAvatarUrl(avatar, name)
    ensures avatar.Some? && Includes(avatar.value, "placeholder") ==> GetAvatarUrl(avatar, name) == PlaceholderAvatar
  {
    PlaceholderIsPlaceholder();
  }

  /** getInitials: the first character upper-cased, or "" for an empty name. */
  function GetInitials(name: string): (r: string)
    ensures |r| <= 1
    ensures r == "" <==> name == ""
    ensures r != "" ==> r[0] == UpperChar(name[0])
    ensures r != "" && 'a' <= name[0] <= 'z' ==> 'A' <= r[0] <= 'Z'
  {
    if name == "" then "" else [UpperChar(name[0])]
  }

  /** The initials of the initials are the initials. */
  lemma GetInitialsIdempotent(name: string)
    ensures GetInitials(GetInitials(name)) == GetInitials(name)
  {
  }

  /** truncateText: the text if it fits, else `text.slice(0, maxLength)` followed by "...". */
  function TruncateText(text: string, maxLength: int): (r: string)
    ensures |text| <= maxLength ==> r == text
    ensures |text| > maxLength ==>
      exists j :: 0 <= j <= |text| && (j < |text| || text == "") && r == text[..j] + "..."
    ensures 0 <= maxLength < |text| ==> r == text[..maxLength] + "..." && |r| == maxLength + 3
  {
    if |text| <= maxLength then text
    else
      var e := ClampIndex(maxLength, |text|);
      assert Slice(text, 0, maxLength) == text[..e];
      Slice(text, 0, maxLength) + "..."
  }
}
