/**
 The view-model projector: every item becomes a (title, subtitle) pair.
 Currency and date formatting are locale-aware collaborators and are kept
 uninterpreted; this module only chooses the template and the date style.
 */
module ItemViewModels {
  import opened Wrappers
  import opened Items

  datatype ItemViewModel = ItemViewModel(title: string, subtitle: string)

  /**
   The formatting collaborators. `currency(amount, code)` is a currency-style
   number formatter set to `code`; `date(d, long)` formats with a long (true)
   or short (false) date style, always with a short time style.
   */
  datatype Formatters = Formatters(currency: (Amount, string) -> string, date: (Date, bool) -> string)

  const Separator := " • "
  const SentPrefix := "Sent to: "
  const ReceivedPrefix := "Received from: "
  const DateJoin := " on "

  function FromFriend(friend: Friend): (vm: ItemViewModel)
    ensures vm.title == friend.name && vm.subtitle == friend.phone
  {
    ItemViewModel(friend.name, friend.phone)
  }

  function FromCard(card: Card): (vm: ItemViewModel)
    ensures vm.title == card.number && vm.subtitle == card.holder
  {
    ItemViewModel(card.number, card.holder)
  }

  /**
   A transfer's title is its formatted amount, a bullet and its description.
   The subtitle template and the counterparty it names depend only on the
   date style: the long style reads as a sent transfer, the short one as a
   received transfer, whatever `isSender` says.
   */
  function FromTransfer(fmt: Formatters, transfer: Transfer, longDateStyle: bool): (vm: ItemViewModel)
    ensures vm.title == fmt.currency(transfer.amount, transfer.currencyCode) + Separator + transfer.description
    ensures longDateStyle ==>
      vm.subtitle == SentPrefix + transfer.recipient + DateJoin + fmt.date(transfer.date, true)
    ensures !longDateStyle ==>
      vm.subtitle == ReceivedPrefix + transfer.sender + DateJoin + fmt.date(transfer.date, false)
  {
    var amount := fmt.currency(transfer.amount, transfer.currencyCode);
    var title := amount + Separator + transfer.description;
    var subtitle :=
      if longDateStyle then SentPrefix + transfer.recipient + DateJoin + fmt.date(transfer.date, true)
      else ReceivedPrefix + transfer.sender + DateJoin + fmt.date(transfer.date, false);
    ItemViewModel(title, subtitle)
  }

  /**
   The generic projector. The item kinds form a closed set, so the source's
   fatal fallback for an unknown item has no counterpart here.
   */
  function Project(fmt: Formatters, item: Item, longDateStyle: bool): (vm: ItemViewModel)
    ensures item.FriendItem? ==> vm.title == item.friend.name && vm.subtitle == item.friend.phone
    ensures item.CardItem? ==> vm.title == item.card.number && vm.subtitle == item.card.holder
    ensures item.TransferItem? ==> vm == FromTransfer(fmt, item.transfer, longDateStyle)
  {
    match item
    case FriendItem(friend) => FromFriend(friend)
    case CardItem(card) => FromCard(card)
    case TransferItem(transfer) => FromTransfer(fmt, transfer, longDateStyle)
  }

  predicate HasPrefix(s: string, prefix: string) {
    |prefix| <= |s| && s[..|prefix|] == prefix
  }

  predicate HasSuffix(s: string, suffix: string) {
    |suffix| <= |s| && s[|s| - |suffix|..] == suffix
  }

  /**
   Reads a transfer title back: given the formatted amount, recovers the
   description, or `None` when the title does not follow the template.
   */
  function ParseTitle(title: string, amountText: string): (description: Option<string>)
    ensures description.Some? ==>
      title == amountText + Separator + description.value
  {
    if HasPrefix(title, amountText + Separator) then
      var d := title[|amountText + Separator|..];
      assert title == title[..|amountText + Separator|] + d;
      Some(d)
    else None
  }

  /**
   Reads a transfer subtitle back: given the formatted date, recovers
   whether the "sent" template was used and the counterparty it names.
   */
  function ParseSubtitle(subtitle: string, dateText: string): (parsed: Option<(bool, string)>)
    ensures parsed.Some? && parsed.value.0 ==>
      subtitle == SentPrefix + parsed.value.1 + DateJoin + dateText
    ensures parsed.Some? && !parsed.value.0 ==>
      subtitle == ReceivedPrefix + parsed.value.1 + DateJoin + dateText
  {
    var suffix := DateJoin + dateText;
    if HasPrefix(subtitle, SentPrefix) && HasSuffix(subtitle, suffix)
      && |SentPrefix| + |suffix| <= |subtitle| then
      var name := subtitle[|SentPrefix|..|subtitle| - |suffix|];
      assert subtitle == subtitle[..|SentPrefix|] + name + subtitle[|subtitle| - |suffix|..];
      Some((true, name))
    else if HasPrefix(subtitle, ReceivedPrefix) && HasSuffix(subtitle, suffix)
      && |ReceivedPrefix| + |suffix| <= |subtitle| then
      var name := subtitle[|ReceivedPrefix|..|subtitle| - |suffix|];
      assert subtitle == subtitle[..|ReceivedPrefix|] + name + subtitle[|subtitle| - |suffix|..];
      Some((false, name))
    else None
  }

  /** The description can be read back from a projected transfer's title. */
  lemma TransferTitleRoundTrip(fmt: Formatters, transfer: Transfer, longDateStyle: bool)
    ensures ParseTitle(Project(fmt, TransferItem(transfer), longDateStyle).title,
                       fmt.currency(transfer.amount, transfer.currencyCode))
            == Some(transfer.description)
  {
  }

  /**
   The date style, and the counterparty the subtitle names, can be read back
   from a projected transfer's subtitle: the long style names the recipient,
   the short style names the sender.
   */
  lemma TransferSubtitleRoundTrip(fmt: Formatters, transfer: Transfer, longDateStyle: bool)
    ensures ParseSubtitle(Project(fmt, TransferItem(transfer), longDateStyle).subtitle,
                          fmt.date(transfer.date, longDateStyle))
            == Some((longDateStyle, if longDateStyle then transfer.recipient else transfer.sender))
  {
    var dateText := fmt.date(transfer.date, longDateStyle);
    var suffix := DateJoin + dateText;
    var subtitle := FromTransfer(fmt, transfer, longDateStyle).subtitle;
    var prefix := if longDateStyle then SentPrefix else ReceivedPrefix;
    var name := if longDateStyle then transfer.recipient else transfer.sender;
    assert subtitle == prefix + name + suffix;
    assert subtitle[..|prefix|] == prefix;
    assert subtitle[|subtitle| - |suffix|..] == suffix;
    assert subtitle[|prefix|..|subtitle| - |suffix|] == name;
    if !longDateStyle {
      assert subtitle[0] == 'R';
    }
  }

  /** Only a transfer's projection depends on the date style, and a transfer's always does. */
  lemma DateStyleMattersOnlyForTransfers(fmt: Formatters, item: Item)
    ensures Project(fmt, item, true) == Project(fmt, item, false) <==> !item.TransferItem?
  {
    if item.TransferItem? {
      var long := Project(fmt, item, true).subtitle;
      var short := Project(fmt, item, false).subtitle;
      assert long[0] == 'S';
      assert short[0] == 'R';
    }
  }

  /**
   Which template a transfer's subtitle uses, and which counterparty it
   names, do not depend on whether the current user sent the transfer.
   */
  lemma TransferProjectionIgnoresDirection(fmt: Formatters, transfer: Transfer, longDateStyle: bool, isSender: bool)
    ensures Project(fmt, TransferItem(transfer.(isSender := isSender)), longDateStyle)
            == Project(fmt, TransferItem(transfer), longDateStyle)
  {
  }
}
