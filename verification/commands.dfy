/** The command enumerations SyncSubscriptionCommandType and
    SyncSessionCommandType. Each member has a numeric value and a name;
    the drivers put the NAME into the command route. */
module Commands {

  import opened Protocol

  datatype SubscriptionCommand = Unknown | Create | Edit | Cancel
  {
    function Code(): int
    {
      match this
      case Unknown => 1
      case Create => 2
      case Edit => 3
      case Cancel => 4
    }

    function Name(): string
    {
      match this
      case Unknown => "Unknown"
      case Create => "Create"
      case Edit => "Edit"
      case Cancel => "Cancel"
    }
  }

  datatype SessionCommand = Unknown | Create | RecordRead | Complete | Cancel
  {
    function Code(): int
    {
      match this
      case Unknown => 1
      case Create => 2
      case RecordRead => 3
      case Complete => 4
      case Cancel => 5
    }

    function Name(): string
    {
      match this
      case Unknown => "Unknown"
      case Create => "Create"
      case RecordRead => "RecordRead"
      case Complete => "Complete"
      case Cancel => "Cancel"
    }
  }

  /** `SyncSubscriptionCommandType(n)`: the member with value `n`, if any. */
  function SubscriptionCommandOfCode(n: int): (r: Option<SubscriptionCommand>)
    ensures r.Some? <==> 1 <= n <= 4
    ensures r.Some? ==> r.value.Code() == n
  {
    if n == 1 then Some(SubscriptionCommand.Unknown)
    else if n == 2 then Some(SubscriptionCommand.Create)
    else if n == 3 then Some(SubscriptionCommand.Edit)
    else if n == 4 then Some(SubscriptionCommand.Cancel)
    else None
  }

  /** `SyncSessionCommandType(n)`: the member with value `n`, if any. */
  function SessionCommandOfCode(n: int): (r: Option<SessionCommand>)
    ensures r.Some? <==> 1 <= n <= 5
    ensures r.Some? ==> r.value.Code() == n
  {
    if n == 1 then Some(SessionCommand.Unknown)
    else if n == 2 then Some(SessionCommand.Create)
    else if n == 3 then Some(SessionCommand.RecordRead)
    else if n == 4 then Some(SessionCommand.Complete)
    else if n == 5 then Some(SessionCommand.Cancel)
    else None
  }

  /** `SyncSubscriptionCommandType[name]`: the member called `name`, if any. */
  function SubscriptionCommandNamed(name: string): (r: Option<SubscriptionCommand>)
    ensures r.Some? ==> r.value.Name() == name
    ensures forall c: SubscriptionCommand :: c.Name() == name ==> r == Some(c)
  {
    if name == "Unknown" then Some(SubscriptionCommand.Unknown)
    else if name == "Create" then Some(SubscriptionCommand.Create)
    else if name == "Edit" then Some(SubscriptionCommand.Edit)
    else if name == "Cancel" then Some(SubscriptionCommand.Cancel)
    else None
  }

  /** `SyncSessionCommandType[name]`: the member called `name`, if any. */
  function SessionCommandNamed(name: string): (r: Option<SessionCommand>)
    ensures r.Some? ==> r.value.Name() == name
    ensures forall c: SessionCommand :: c.Name() == name ==> r == Some(c)
  {
    if name == "Unknown" then Some(SessionCommand.Unknown)
    else if name == "Create" then Some(SessionCommand.Create)
    else if name == "RecordRead" then Some(SessionCommand.RecordRead)
    else if name == "Complete" then Some(SessionCommand.Complete)
    else if name == "Cancel" then Some(SessionCommand.Cancel)
    else None
  }

  /** The Global flow cancels its subscription with the SESSION enum's
      Cancel member; the route only sees the name, which the subscription
      enum reads as its own Cancel, although the two values differ. */
  lemma SessionCancelNameIsSubscriptionCancel()
    ensures SubscriptionCommandNamed(SessionCommand.Cancel.Name()) == Some(SubscriptionCommand.Cancel)
    ensures SessionCommand.Cancel.Code() != SubscriptionCommand.Cancel.Code()
  {
  }
}
