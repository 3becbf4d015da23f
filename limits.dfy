/**
 * The numeric clamps the tool dispatcher applies to its arguments:
 * `min(int(arguments.get(name, default)), cap)`. The default applies only when the argument
 * is absent; a value that is present is taken as it is and only capped from above.
 */
module Limits {
  import opened Wrappers

  function Clamp(given: Option<int>, default: int, cap: int): (r: int)
    requires default <= cap
    ensures r <= cap
    ensures given.None? ==> r == default
    ensures given.Some? && given.value <= cap ==> r == given.value
    ensures given.Some? && given.value > cap ==> r == cap
  {
    var v := if given.Some? then given.value else default;
    if v <= cap then v else cap
  }

  /** `get_unread_messages`: `min(int(arguments.get("limit", 20)), 100)`. */
  function UnreadLimit(given: Option<int>): (r: int)
    ensures r <= 100
    ensures given.None? ==> r == 20
    ensures given.Some? ==> r == if given.value <= 100 then given.value else 100
  {
    Clamp(given, 20, 100)
  }

  /** `read_messages`: `min(int(arguments.get("limit", 10)), 100)`. */
  function ReadMessagesLimit(given: Option<int>): (r: int)
    ensures r <= 100
    ensures given.None? ==> r == 10
    ensures given.Some? ==> r == if given.value <= 100 then given.value else 100
  {
    Clamp(given, 10, 100)
  }

  /** `list_members`: `min(int(arguments.get("limit", 100)), 1000)`. */
  function MembersLimit(given: Option<int>): (r: int)
    ensures r <= 1000
    ensures given.None? ==> r == 100
    ensures given.Some? ==> r == if given.value <= 1000 then given.value else 1000
  {
    Clamp(given, 100, 1000)
  }

  /** `ban_user`: `min(int(arguments.get("delete_message_days", 0)), 7)`. */
  function BanDeleteDays(given: Option<int>): (r: int)
    ensures r <= 7
    ensures given.None? ==> r == 0
    ensures given.Some? ==> r == if given.value <= 7 then given.value else 7
  {
    Clamp(given, 0, 7)
  }
}
