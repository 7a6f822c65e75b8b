/**
 * Message shortcuts: fixed replies for the one-letter commands "I" and "S",
 * and the sender check guarding the protected category shortcut.
 */
module Shortcuts {
  import opened Wrappers
  import Text

  /** The default replies, used when no (or an empty) table is supplied. */
  const DefaultShortcuts: map<string, string> := map[
    "I" := "Cual es el monto del ingreso de dinero.",
    "S" := "Cual es el monto de la salida de dinero."
  ]

  /** The numbers allowed to trigger the protected category shortcut. */
  const AllowedCategorySenders: set<string> := {"3004356388"}

  datatype ShortcutService = ShortcutService(shortcuts: map<string, string>)

  /** `ShortcutService(shortcuts)`: `shortcuts or {defaults}`, so an empty table also falls back. */
  function NewShortcutService(custom: Option<map<string, string>>): (svc: ShortcutService)
    ensures custom.Some? && custom.value != map[] ==> svc.shortcuts == custom.value
    ensures custom.None? || custom.value == map[] ==> svc.shortcuts == DefaultShortcuts
    ensures svc.shortcuts != map[]
  {
    if custom.Some? && custom.value != map[] then ShortcutService(custom.value)
    else
      assert "I" in DefaultShortcuts;
      ShortcutService(DefaultShortcuts)
  }

  /**
   * `get_reply_for_shortcut(text, sender)`: the reply stored under the stripped
   * text, if any. `None` text gives no reply; the sender is not consulted.
   */
  function GetReplyForShortcut(svc: ShortcutService, text: Option<string>, sender: Option<string>): (r: Option<string>)
    ensures r.Some? <==> text.Some? && Text.Strip(text.value) in svc.shortcuts
    ensures r.Some? ==> r.value == svc.shortcuts[Text.Strip(text.value)]
  {
    if text.None? then None
    else
      var normalized := Text.Strip(text.value);
      if normalized in svc.shortcuts then Some(svc.shortcuts[normalized]) else None
  }

  /** The sender never changes the reply. */
  lemma ReplyIgnoresSender(svc: ShortcutService, text: Option<string>, s1: Option<string>, s2: Option<string>)
    ensures GetReplyForShortcut(svc, text, s1) == GetReplyForShortcut(svc, text, s2)
  {
  }

  /**
   * With the default table, surrounding whitespace is ignored but case is not:
   * " I \n" gets the income question, "i" gets nothing.
   */
  lemma DefaultShortcutsCaseSensitive()
    ensures GetReplyForShortcut(NewShortcutService(None), Some(" I \n"), None) == Some("Cual es el monto del ingreso de dinero.")
    ensures GetReplyForShortcut(NewShortcutService(None), Some("i"), None) == None
  {
    var t := " I \n";
    Text.FirstOutsideUnique(t, Text.Whitespace, 1);
    var u := t[1..];
    Text.EndOutsideUnique(u, Text.Whitespace, 1);
    assert u[..1] == "I";
    Text.StripCharsNoop("i", Text.Whitespace);
  }

  /**
   * `is_allowed_category_sender(sender)`: false for a missing or empty sender
   * and for one without digits; otherwise true exactly when the sender's digits
   * end with an allowed number.
   */
  function IsAllowedCategorySender(sender: Option<string>): (ok: bool)
    ensures ok ==> sender.Some? && sender.value != [] && Text.Digits(sender.value) != []
    ensures ok <==> sender.Some? && exists a | a in AllowedCategorySenders :: Text.EndsWith(Text.Digits(sender.value), a)
  {
    if sender.None? || sender.value == [] then false
    else
      var digits := Text.Digits(sender.value);
      if digits == [] then false
      else exists a | a in AllowedCategorySenders :: Text.EndsWith(digits, a)
  }

  /** Country prefixes and formatting in front of an allowed sender keep it allowed. */
  lemma {:induction false} AllowedSenderPrefixTolerant(prefix: string, sender: string)
    requires IsAllowedCategorySender(Some(sender))
    ensures IsAllowedCategorySender(Some(prefix + sender))
  {
    var a :| a in AllowedCategorySenders && Text.EndsWith(Text.Digits(sender), a);
    Text.DigitsConcat(prefix, sender);
    Text.EndsWithPrepend(Text.Digits(prefix), Text.Digits(sender), a);
  }

  /** The allowed number itself is allowed, also behind any prefix such as "57" or "+57 ". */
  lemma AllowedSenderAccepted(prefix: string)
    ensures IsAllowedCategorySender(Some("3004356388"))
    ensures IsAllowedCategorySender(Some(prefix + "3004356388"))
  {
    var n := "3004356388";
    Text.DigitsOfDigits(n);
    assert n in AllowedCategorySenders;
    assert n[|n| - |n|..] == n;
    assert Text.EndsWith(Text.Digits(n), n);
    AllowedSenderPrefixTolerant(prefix, n);
  }

  /** A number differing in its last digits, a sender without digits and a missing sender are refused. */
  lemma OtherSendersRefused()
    ensures !IsAllowedCategorySender(Some("3004356399"))
    ensures !IsAllowedCategorySender(Some("+"))
    ensures !IsAllowedCategorySender(None)
  {
    var n, m := "3004356388", "3004356399";
    Text.DigitsOfDigits(m);
    assert AllowedCategorySenders == {n};
    assert !Text.EndsWith(m, n) by { assert m[8] != n[8]; }
    assert Text.Digits("+") == [];
  }
}
