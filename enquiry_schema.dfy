/**
 * `enquiryFormSchema`: the field rules of the enquiry form and the
 * date-order refinement, as zod's `safeParse` applies them. Every field is
 * checked, in the order the schema lists them, and each failed rule adds one
 * issue; the refinement runs after the fields (their values are always of
 * the right type here) and adds its issue last, on `returnDate`.
 *
 * Numbers are already coerced integers and dates are integers ordered like
 * the instants they stand for; whether a string is an email address is a
 * parameter.
 */
module EnquirySchema {
  import opened Wrappers

  datatype Field =
    | Name | EmailAddress | Phone | PickupLocation | FinalDestination
    | PickupDate | ReturnDate | Adults | Children | NumberOfRooms
    | Stops | Message | RecaptchaToken

  /** A rule of the schema; a failed rule is reported as an issue on its path with its message. */
  datatype Rule =
    | NameMinLength | EmailFormat | PhoneMinLength | PickupMinLength | DestinationMinLength
    | AdultsMin | ChildrenMin | RoomsMin | MessageMinLength | MessageMaxLength
    | ReturnNotBeforePickup
  {
    function Path(): Field {
      match this
      case NameMinLength => Name
      case EmailFormat => EmailAddress
      case PhoneMinLength => Phone
      case PickupMinLength => PickupLocation
      case DestinationMinLength => FinalDestination
      case AdultsMin => Adults
      case ChildrenMin => Children
      case RoomsMin => NumberOfRooms
      case MessageMinLength => Message
      case MessageMaxLength => Message
      case ReturnNotBeforePickup => ReturnDate
    }

    /** The rule's position in the schema: fields as listed, then the refinement. */
    function Rank(): nat {
      match this
      case NameMinLength => 0
      case EmailFormat => 1
      case PhoneMinLength => 2
      case PickupMinLength => 3
      case DestinationMinLength => 4
      case AdultsMin => 5
      case ChildrenMin => 6
      case RoomsMin => 7
      case MessageMinLength => 8
      case MessageMaxLength => 9
      case ReturnNotBeforePickup => 10
    }

    function Text(): string {
      match this
      case NameMinLength => "Full Name must be at least 2 characters."
      case EmailFormat => "Please enter a valid email address."
      case PhoneMinLength => "Phone number must be at least 10 digits."
      case PickupMinLength => "Pickup location must be at least 2 characters."
      case DestinationMinLength => "Final Destination must be at least 2 characters."
      case AdultsMin => "At least one adult is required."
      case ChildrenMin => "Number of children cannot be negative."
      case RoomsMin => "At least one room is required if specified."
      case MessageMinLength => "Message must be at least 10 characters."
      case MessageMaxLength => "Message must not exceed 500 characters."
      case ReturnNotBeforePickup => "Return date must be on or after the pickup date."
    }
  }

  /** `EnquiryFormValues`, with `undefined` as `None`. */
  datatype EnquiryFormValues = EnquiryFormValues(
    name: string,
    email: string,
    phone: Option<string>,
    pickupLocation: string,
    finalDestination: string,
    pickupDate: Option<int>,
    returnDate: Option<int>,
    adults: int,
    children: Option<int>,
    numberOfRooms: Option<int>,
    stops: Option<string>,
    message: string,
    recaptchaToken: Option<string>)

  /** zod's `.email()` test. */
  type EmailCheck = string -> bool

  /** The `.refine(...)` predicate: it only speaks when both dates are given. */
  predicate DatesInOrder(v: EnquiryFormValues) {
    v.pickupDate.Some? && v.returnDate.Some? ==> v.returnDate.value >= v.pickupDate.value
  }

  /** Whether `v` fails `rule`, as the schema's checks test it. */
  predicate Broken(rule: Rule, v: EnquiryFormValues, isEmail: EmailCheck) {
    match rule
    case NameMinLength => |v.name| < 2
    case EmailFormat => !isEmail(v.email)
    // `.optional().or(z.literal(""))`: only a present, non-empty, short string fails
    case PhoneMinLength => v.phone.Some? && v.phone.value != "" && |v.phone.value| < 10
    case PickupMinLength => |v.pickupLocation| < 2
    case DestinationMinLength => |v.finalDestination| < 2
    case AdultsMin => v.adults < 1
    case ChildrenMin => v.children.Some? && v.children.value < 0
    case RoomsMin => v.numberOfRooms.Some? && v.numberOfRooms.value < 1
    case MessageMinLength => |v.message| < 10
    case MessageMaxLength => |v.message| > 500
    case ReturnNotBeforePickup => !DatesInOrder(v)
  }

  /** The order in which `safeParse` checks the rules: the fields as listed, then the refinement. */
  const SchemaOrder: seq<Rule> := [
    NameMinLength, EmailFormat, PhoneMinLength, PickupMinLength, DestinationMinLength,
    AdultsMin, ChildrenMin, RoomsMin, MessageMinLength, MessageMaxLength,
    ReturnNotBeforePickup]

  /** Strictly increasing in schema position: in schema order, each rule at most once. */
  predicate Ascending(rules: seq<Rule>) {
    forall i, j :: 0 <= i < j < |rules| ==> rules[i].Rank() < rules[j].Rank()
  }

  /** In an ascending list, the head ranks below every rule taken from the tail. */
  lemma HeadBelowRest(rules: seq<Rule>, rest: seq<Rule>)
    requires rules != []
    requires forall rule :: rule in rest ==> rule in rules[1..]
    ensures Ascending(rules) && Ascending(rest) ==> Ascending([rules[0]] + rest)
  {
    if Ascending(rules) && Ascending(rest) {
      HeadBelow(rules, rest);
    }
  }

  lemma HeadBelow(rules: seq<Rule>, rest: seq<Rule>)
    requires rules != [] && Ascending(rules)
    requires forall rule :: rule in rest ==> rule in rules[1..]
    ensures forall k :: 0 <= k < |rest| ==> rules[0].Rank() < rest[k].Rank()
  {
    forall k | 0 <= k < |rest| ensures rules[0].Rank() < rest[k].Rank() {
      assert rest[k] in rest;
      var j :| 0 <= j < |rules[1..]| && rules[1..][j] == rest[k];
      assert rules[j + 1] == rest[k];
    }
  }

  /** The broken rules among `rules`, in their order. */
  function Select(rules: seq<Rule>, v: EnquiryFormValues, isEmail: EmailCheck): (r: seq<Rule>)
    ensures forall rule :: rule in r <==> rule in rules && Broken(rule, v, isEmail)
    ensures |r| <= |rules|
    ensures rules != [] && Broken(rules[|rules| - 1], v, isEmail) ==> r != [] && r[|r| - 1] == rules[|rules| - 1]
    ensures Ascending(rules) ==> Ascending(r)
  {
    if rules == [] then []
    else
      var rest := Select(rules[1..], v, isEmail);
      assert forall rule :: rule in rules <==> rule == rules[0] || rule in rules[1..];
      if Broken(rules[0], v, isEmail) then
        HeadBelowRest(rules, rest);
        [rules[0]] + rest
      else rest
  }

  /** Every issue `safeParse` reports, in the order it reports them. */
  function Issues(v: EnquiryFormValues, isEmail: EmailCheck): (r: seq<Rule>)
    ensures forall rule :: rule in r <==> Broken(rule, v, isEmail)
    ensures ReturnNotBeforePickup in r ==> r[|r| - 1] == ReturnNotBeforePickup
    ensures Ascending(r)
    ensures forall i :: 0 <= i < |r| ==> r[i].Path() !in {PickupDate, Stops, RecaptchaToken}
  {
    SchemaOrderComplete();
    SchemaOrderAscending();
    Select(SchemaOrder, v, isEmail)
  }

  /** Two ascending rule lists with the same members are the same list. */
  lemma {:induction false} AscendingUnique(a: seq<Rule>, b: seq<Rule>)
    requires Ascending(a) && Ascending(b)
    requires forall rule :: rule in a <==> rule in b
    ensures a == b
    decreases |a|
  {
    assert a != [] ==> a[0] in a;
    assert b != [] ==> b[0] in b;
    if a == [] {
      assert b == [];
    } else {
      assert b != [];
      var i :| 0 <= i < |a| && a[i] == b[0];
      var j :| 0 <= j < |b| && b[j] == a[0];
      assert i == 0;
      TailsAgree(a, b);
      AscendingUnique(a[1..], b[1..]);
      assert a == [a[0]] + a[1..] && b == [b[0]] + b[1..];
    }
  }

  /** Lists that agree in members and head, both ascending, agree in the members of their tails. */
  lemma TailsAgree(a: seq<Rule>, b: seq<Rule>)
    requires a != [] && b != [] && a[0] == b[0]
    requires Ascending(a) && Ascending(b)
    requires forall rule :: rule in a <==> rule in b
    ensures Ascending(a[1..]) && Ascending(b[1..])
    ensures forall rule :: rule in a[1..] <==> rule in b[1..]
  {
    forall rule | rule in a[1..] ensures rule in b[1..] {
      var k :| 0 <= k < |a[1..]| && a[1..][k] == rule;
      assert a[k + 1] == rule && a[0].Rank() < rule.Rank();
      assert rule in a;
      var m :| 0 <= m < |b| && b[m] == rule;
      assert m != 0;
      assert b[1..][m - 1] == rule;
    }
    forall rule | rule in b[1..] ensures rule in a[1..] {
      var k :| 0 <= k < |b[1..]| && b[1..][k] == rule;
      assert b[k + 1] == rule && b[0].Rank() < rule.Rank();
      assert rule in b;
      var m :| 0 <= m < |a| && a[m] == rule;
      assert m != 0;
      assert a[1..][m - 1] == rule;
    }
  }

  /** The issue list is the only schema-ordered list of exactly the broken rules. */
  lemma IssuesDetermined(v: EnquiryFormValues, isEmail: EmailCheck, r: seq<Rule>)
    requires Ascending(r)
    requires forall rule :: rule in r <==> Broken(rule, v, isEmail)
    ensures r == Issues(v, isEmail)
  {
    AscendingUnique(r, Issues(v, isEmail));
  }

  /** The first issue reported is the broken rule that comes earliest in the schema. */
  lemma FirstIssueEarliest(v: EnquiryFormValues, isEmail: EmailCheck, rule: Rule)
    requires Broken(rule, v, isEmail)
    ensures Issues(v, isEmail) != []
    ensures Issues(v, isEmail)[0].Rank() <= rule.Rank()
  {
    var r := Issues(v, isEmail);
    assert rule in r;
    var k :| 0 <= k < |r| && r[k] == rule;
    assert k == 0 || r[0].Rank() < r[k].Rank();
  }

  lemma SchemaOrderAscending()
    ensures Ascending(SchemaOrder)
  {
    forall k | 0 <= k < |SchemaOrder| ensures SchemaOrder[k].Rank() == k {}
  }

  lemma SchemaOrderComplete()
    ensures forall rule :: rule in SchemaOrder
  {
    forall rule: Rule ensures rule in SchemaOrder {
      var k :=
        match rule
        case NameMinLength => 0
        case EmailFormat => 1
        case PhoneMinLength => 2
        case PickupMinLength => 3
        case DestinationMinLength => 4
        case AdultsMin => 5
        case ChildrenMin => 6
        case RoomsMin => 7
        case MessageMinLength => 8
        case MessageMaxLength => 9
        case ReturnNotBeforePickup => 10;
      assert SchemaOrder[k] == rule;
    }
  }

  /**
   * The rules of the form as a reader states them, one conjunct per rule.
   * Lengths count characters, not digits.
   */
  predicate Accepted(v: EnquiryFormValues, isEmail: EmailCheck) {
    && |v.name| >= 2
    && isEmail(v.email)
    && (v.phone.None? || v.phone.value == "" || |v.phone.value| >= 10)
    && |v.pickupLocation| >= 2
    && |v.finalDestination| >= 2
    && v.adults >= 1
    && (v.children.None? || v.children.value >= 0)
    && (v.numberOfRooms.None? || v.numberOfRooms.value >= 1)
    && 10 <= |v.message| <= 500
    && (v.pickupDate.None? || v.returnDate.None? || v.pickupDate.value <= v.returnDate.value)
  }

  /** The declarative reading of the rules agrees with the rule table. */
  lemma AcceptedIffNothingBroken(v: EnquiryFormValues, isEmail: EmailCheck)
    ensures Accepted(v, isEmail) <==> forall rule :: !Broken(rule, v, isEmail)
  {
    if forall rule :: !Broken(rule, v, isEmail) {
      assert !Broken(NameMinLength, v, isEmail) && !Broken(EmailFormat, v, isEmail);
      assert !Broken(PhoneMinLength, v, isEmail) && !Broken(PickupMinLength, v, isEmail);
      assert !Broken(DestinationMinLength, v, isEmail) && !Broken(AdultsMin, v, isEmail);
      assert !Broken(ChildrenMin, v, isEmail) && !Broken(RoomsMin, v, isEmail);
      assert !Broken(MessageMinLength, v, isEmail) && !Broken(MessageMaxLength, v, isEmail);
      assert !Broken(ReturnNotBeforePickup, v, isEmail);
    }
  }

  datatype SafeParseResult = Success(data: EnquiryFormValues) | Failure(issues: seq<Rule>)

  /** `enquiryFormSchema.safeParse(v)`. */
  function SafeParse(v: EnquiryFormValues, isEmail: EmailCheck): (r: SafeParseResult)
    ensures r.Success? <==> Accepted(v, isEmail)
    ensures r.Success? ==> r.data == v
    ensures r.Failure? ==> r.issues == Issues(v, isEmail) && r.issues != []
  {
    AcceptedIffNothingBroken(v, isEmail);
    var issues := Issues(v, isEmail);
    assert issues != [] ==> Broken(issues[0], v, isEmail);
    if issues == [] then Success(v) else Failure(issues)
  }

  // -----------------------------------------------------------------------
  // The rules one by one

  /** `name`, `pickupLocation` and `finalDestination` need at least two characters. */
  lemma TextFieldRules(v: EnquiryFormValues, isEmail: EmailCheck)
    ensures NameMinLength in Issues(v, isEmail) <==> |v.name| < 2
    ensures PickupMinLength in Issues(v, isEmail) <==> |v.pickupLocation| < 2
    ensures DestinationMinLength in Issues(v, isEmail) <==> |v.finalDestination| < 2
    ensures EmailFormat in Issues(v, isEmail) <==> !isEmail(v.email)
  {
  }

  /** A phone number is accepted when absent, empty, or at least ten characters long. */
  lemma PhoneRule(v: EnquiryFormValues, isEmail: EmailCheck)
    ensures PhoneMinLength !in Issues(v, isEmail) <==>
      v.phone.None? || v.phone.value == "" || |v.phone.value| >= 10
  {
  }

  /** At least one adult; children, if given, not negative; rooms, if given, at least one. */
  lemma CountRules(v: EnquiryFormValues, isEmail: EmailCheck)
    ensures AdultsMin in Issues(v, isEmail) <==> v.adults < 1
    ensures ChildrenMin in Issues(v, isEmail) <==> v.children.Some? && v.children.value < 0
    ensures RoomsMin in Issues(v, isEmail) <==> v.numberOfRooms.Some? && v.numberOfRooms.value < 1
  {
  }

  /** The message is accepted exactly when it has 10 to 500 characters. */
  lemma MessageRule(v: EnquiryFormValues, isEmail: EmailCheck)
    ensures MessageMinLength !in Issues(v, isEmail) && MessageMaxLength !in Issues(v, isEmail) <==>
      10 <= |v.message| <= 500
  {
  }

  /**
   * The refinement fails only when both dates are given and the return date
   * is earlier; its issue is the last one and is attributed to `returnDate`.
   */
  lemma DateOrderRule(v: EnquiryFormValues, isEmail: EmailCheck)
    ensures ReturnNotBeforePickup in Issues(v, isEmail) <==>
      v.pickupDate.Some? && v.returnDate.Some? && v.returnDate.value < v.pickupDate.value
    ensures v.pickupDate.None? || v.returnDate.None? ==> ReturnNotBeforePickup !in Issues(v, isEmail)
    ensures ReturnNotBeforePickup in Issues(v, isEmail) ==>
      var r := Issues(v, isEmail);
      r[|r| - 1] == ReturnNotBeforePickup && r[|r| - 1].Path() == ReturnDate
  {
  }

  /** Which rules are reported depends only on which rules are broken. */
  lemma {:induction false} SelectDependsOnlyOnBroken(rules: seq<Rule>, v1: EnquiryFormValues,
                                                     v2: EnquiryFormValues, isEmail: EmailCheck)
    requires forall rule :: Broken(rule, v1, isEmail) == Broken(rule, v2, isEmail)
    ensures Select(rules, v1, isEmail) == Select(rules, v2, isEmail)
    decreases |rules|
  {
    if rules != [] {
      SelectDependsOnlyOnBroken(rules[1..], v1, v2, isEmail);
    }
  }

  /** No rule looks at `recaptchaToken`. */
  lemma IssuesIgnoreToken(v: EnquiryFormValues, token: Option<string>, isEmail: EmailCheck)
    ensures Issues(v.(recaptchaToken := token), isEmail) == Issues(v, isEmail)
    ensures Accepted(v.(recaptchaToken := token), isEmail) == Accepted(v, isEmail)
  {
    SelectDependsOnlyOnBroken(SchemaOrder, v.(recaptchaToken := token), v, isEmail);
  }
}
