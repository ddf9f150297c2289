/** The pure operations of the single-message form (`SingleMessage.tsx`): choosing
    the recipients of a send, toggling a contact's selection, and the contact-list
    and template managers. Each operation maps the old component state to the new
    one together with the alert it raises, if any. */
module SingleMessage {
  import opened Common
  import opened Text

  /** The alerts the form raises. */
  datatype Alert =
    | EnterMessage | SelectContacts
    | FillAllFields | AddAtLeastOneContact | ListSaved | ListUpdated
    | EnterPhoneNumber | MustStartWithPlus
    | TemplateSaved

  /** A new state and the alert shown on the way, if any. */
  datatype Step<S> = Step(state: S, alert: Option<Alert>)

  datatype ContactList = ContactList(id: string, name: string, contacts: seq<string>)
  datatype MessageTemplate = MessageTemplate(id: string, name: string, content: string)

  // ---------------------------------------------------------------------------------------
  // Sending
  // ---------------------------------------------------------------------------------------

  datatype Mode = PhoneMode | ListMode

  /** The recipients of a send: the typed number in phone mode (none if it is empty), the
      selected contacts in list mode. */
  function Recipients(mode: Mode, phone: string, selected: seq<string>): seq<string> {
    match mode
    case PhoneMode => if phone != [] then [phone] else []
    case ListMode => selected
  }

  /** What `send` decides: an alert, or a hand-over of phones and message to `onSendMessage`. */
  datatype SendDecision = Rejected(alert: Alert) | HandOver(phones: seq<string>, message: string)

  function Send(mode: Mode, phone: string, selected: seq<string>, msg: string): SendDecision {
    if Trim(msg) == [] then Rejected(EnterMessage)
    else if Recipients(mode, phone, selected) == [] then Rejected(SelectContacts)
    else HandOver(Recipients(mode, phone, selected), msg)
  }

  /** A send is handed over exactly when the message has a character that is not white space
      and there is at least one recipient; the message goes out untrimmed, and the phones are
      `[phone]` in phone mode and the selection in list mode. A blank message is refused before
      the recipients are looked at. */
  lemma SendSpec(mode: Mode, phone: string, selected: seq<string>, msg: string)
    ensures var r := Send(mode, phone, selected, msg);
      && (r.HandOver? <==> (exists i :: 0 <= i < |msg| && !IsSpace(msg[i])) &&
                           (if mode == PhoneMode then phone != [] else selected != []))
      && (r == Rejected(EnterMessage) <==> forall i :: 0 <= i < |msg| ==> IsSpace(msg[i]))
      && (r.HandOver? ==> r.message == msg && r.phones != [] &&
                          r.phones == (if mode == PhoneMode then [phone] else selected))
  {
    TrimEmptyIff(msg);
  }

  // ---------------------------------------------------------------------------------------
  // Selection
  // ---------------------------------------------------------------------------------------

  /** The checkbox handler: a selected contact is deselected (every copy of it), any other one
      is appended. */
  function Toggle(selected: seq<string>, c: string): seq<string> {
    if c in selected then Filter(selected, (x: string) => x != c) else selected + [c]
  }

  /** Deselecting removes every occurrence of `c` and keeps every other contact, as often and
      in the order it was; selecting appends `c` at the end. */
  lemma ToggleSpec(selected: seq<string>, c: string, x: string)
    ensures c in selected ==> c !in Toggle(selected, c)
    ensures c in selected ==> IsSubsequence(Toggle(selected, c), selected)
    ensures c in selected && x != c ==> multiset(Toggle(selected, c))[x] == multiset(selected)[x]
    ensures c !in selected ==> Toggle(selected, c) == selected + [c]
  {
    var p := (y: string) => y != c;
    FilterMembership(selected, p, c);
    FilterIsSubsequence(selected, p);
    FilterMultiset(selected, p, x);
  }

  /** Toggling an unselected contact twice gives the selection back. */
  lemma ToggleTwice(selected: seq<string>, c: string)
    requires c !in selected
    ensures Toggle(Toggle(selected, c), c) == selected
  {
    var p := (y: string) => y != c;
    FilterAppend(selected, [c], p);
    FilterAll(selected, p);
    assert Filter([c], p) == [];
  }

  /** The part of the form state the recipient controls use. */
  datatype Form = Form(mode: Mode, phone: string, selectedList: string, selected: seq<string>, msg: string)

  /** Picking a list in the drop-down: the list becomes current and the selection is cleared. */
  function ChooseList(f: Form, id: string): (r: Form)
    ensures r.selectedList == id && r.selected == []
    ensures r.mode == f.mode && r.phone == f.phone && r.msg == f.msg
  {
    f.(selectedList := id, selected := [])
  }

  // ---------------------------------------------------------------------------------------
  // Contact lists
  // ---------------------------------------------------------------------------------------

  /** The state of `ContactManager` (with the lists it edits through `setLists`). */
  datatype Manager = Manager(lists: seq<ContactList>, name: string, contacts: string,
                             editingListId: string, editingContacts: seq<string>, newNumber: string)

  /** `map(c => c.trim())`. */
  function TrimAll(xs: seq<string>): seq<string> {
    seq(|xs|, k requires 0 <= k < |xs| => Trim(xs[k]))
  }

  predicate NonEmpty(s: string) {
    s != []
  }

  /** `contacts.split('\n').map(c => c.trim()).filter(c => c)`. */
  function ParseContacts(text: string): seq<string> {
    Filter(TrimAll(Split(text, '\n')), NonEmpty)
  }

  /** A contact as it can come out of the parser. */
  predicate WellFormedContact(c: string) {
    c != [] && IsTrimmed(c) && '\n' !in c
  }

  /** Trimming a line has no white space at its ends and keeps only characters of the line. */
  lemma TrimLine(line: string)
    requires '\n' !in line
    ensures IsTrimmed(Trim(line)) && '\n' !in Trim(line)
  {
    var start := TrimIsInfix(line);
  }

  /** Every parsed contact is non-empty, has no white space at its ends and no line break. */
  lemma ParseContactsWellFormed(text: string)
    ensures forall k :: 0 <= k < |ParseContacts(text)| ==> WellFormedContact(ParseContacts(text)[k])
  {
    var lines := Split(text, '\n');
    var trimmed := TrimAll(lines);
    forall k | 0 <= k < |trimmed|
      ensures IsTrimmed(trimmed[k]) && '\n' !in trimmed[k]
    {
      TrimLine(lines[k]);
    }
    FilterKeeps(trimmed, NonEmpty, (c: string) => IsTrimmed(c) && '\n' !in c);
  }

  lemma TrimAllOfTrimmed(xs: seq<string>)
    requires forall k :: 0 <= k < |xs| ==> IsTrimmed(xs[k])
    ensures TrimAll(xs) == xs
  {
    forall k | 0 <= k < |xs| ensures TrimAll(xs)[k] == xs[k] {
      TrimOfTrimmed(xs[k]);
    }
  }

  /** Writing contacts one per line and parsing the text gives the same contacts back, for
      contacts that are non-empty, have no white space at their ends and no line break. */
  lemma ParseContactsJoin(xs: seq<string>)
    requires forall k :: 0 <= k < |xs| ==> WellFormedContact(xs[k])
    ensures ParseContacts(Join(xs, '\n')) == xs
  {
    var lines := Split(Join(xs, '\n'), '\n');
    if xs == [] {
      assert lines == [[]];
      TrimAllOfTrimmed(lines);
      assert Filter(lines, NonEmpty) == [];
    } else {
      SplitJoin(xs, '\n');
      TrimAllOfTrimmed(xs);
      FilterAll(xs, NonEmpty);
    }
  }

  /** `save`: a new list with the parsed contacts is appended, and the form is cleared. */
  function SaveList(m: Manager, id: string): Step<Manager> {
    if m.name == [] || m.contacts == [] then Step(m, Some(FillAllFields))
    else
      var arr := ParseContacts(m.contacts);
      if arr == [] then Step(m, Some(AddAtLeastOneContact))
      else Step(m.(lists := m.lists + [ContactList(id, m.name, arr)], name := [], contacts := []), Some(ListSaved))
  }

  /** `save` rejects an empty name or text, and a text without a contact, changing nothing;
      otherwise it appends exactly one list at the end, holding the name and the parsed
      contacts, and leaves the existing lists as they were. */
  lemma SaveListSpec(m: Manager, id: string)
    ensures var r := SaveList(m, id);
      && (r.alert == Some(ListSaved) <==> m.name != [] && m.contacts != [] && ParseContacts(m.contacts) != [])
      && (r.alert != Some(ListSaved) ==> r.state == m)
      && (r.alert == Some(ListSaved) ==>
            && |r.state.lists| == |m.lists| + 1
            && r.state.lists[..|m.lists|] == m.lists
            && r.state.lists[|m.lists|] == ContactList(id, m.name, ParseContacts(m.contacts))
            && r.state.lists[|m.lists|].contacts != []
            && r.state.name == [] && r.state.contacts == []
            && r.state.editingListId == m.editingListId && r.state.editingContacts == m.editingContacts
            && r.state.newNumber == m.newNumber)
  {
    var r := SaveList(m, id);
    if r.alert == Some(ListSaved) {
      assert r.state.lists[..|m.lists|] == m.lists;
    }
  }

  /** `startEditing(list)`: the list's contacts are copied into the editor. */
  function StartEditing(m: Manager, list: ContactList): (r: Manager)
    ensures r.editingListId == list.id && r.editingContacts == list.contacts && r.lists == m.lists
    ensures r.name == m.name && r.contacts == m.contacts && r.newNumber == m.newNumber
  {
    m.(editingListId := list.id, editingContacts := list.contacts)
  }

  /** `cancelEditing`: the editor is reset. */
  function CancelEditing(m: Manager): (r: Manager)
    ensures r.editingListId == [] && r.editingContacts == [] && r.newNumber == [] && r.lists == m.lists
    ensures r.name == m.name && r.contacts == m.contacts
  {
    m.(editingListId := [], editingContacts := [], newNumber := [])
  }

  /** `lists.map(l => l.id === id ? { ...l, contacts } : l)`. */
  function ReplaceContacts(lists: seq<ContactList>, id: string, contacts: seq<string>): seq<ContactList> {
    if lists == [] then []
    else [if lists[0].id == id then lists[0].(contacts := contacts) else lists[0]]
         + ReplaceContacts(lists[1..], id, contacts)
  }

  /** The replacement keeps the number and order of lists, gives every list with the id the new
      contacts, keeping its id and name, and leaves every other list unchanged. */
  lemma {:induction false} ReplaceContactsSpec(lists: seq<ContactList>, id: string, contacts: seq<string>)
    ensures |ReplaceContacts(lists, id, contacts)| == |lists|
    ensures forall k :: 0 <= k < |lists| ==>
      ReplaceContacts(lists, id, contacts)[k] ==
        if lists[k].id == id then ContactList(id, lists[k].name, contacts) else lists[k]
  {
    if lists != [] {
      ReplaceContactsSpec(lists[1..], id, contacts);
      var r := ReplaceContacts(lists, id, contacts);
      forall k | 1 <= k < |lists|
        ensures r[k] == if lists[k].id == id then ContactList(id, lists[k].name, contacts) else lists[k]
      {
        assert lists[k] == lists[1..][k - 1];
      }
    }
  }

  /** `saveEditing`: an empty contact list is refused; otherwise the edited list gets the new
      contacts and the editor is reset. */
  function SaveEditing(m: Manager): Step<Manager> {
    if m.editingContacts == [] then Step(m, Some(AddAtLeastOneContact))
    else Step(CancelEditing(m.(lists := ReplaceContacts(m.lists, m.editingListId, m.editingContacts))), Some(ListUpdated))
  }

  /** Saving an edit with contacts replaces exactly the lists with the edited id, and resets
      the editor; saving an empty edit changes nothing. */
  lemma SaveEditingSpec(m: Manager)
    ensures var r := SaveEditing(m);
      && (m.editingContacts == [] ==> r == Step(m, Some(AddAtLeastOneContact)))
      && (m.editingContacts != [] ==>
            && r.alert == Some(ListUpdated)
            && |r.state.lists| == |m.lists|
            && (forall k :: 0 <= k < |m.lists| && m.lists[k].id == m.editingListId ==>
                  r.state.lists[k] == m.lists[k].(contacts := m.editingContacts))
            && (forall k :: 0 <= k < |m.lists| && m.lists[k].id != m.editingListId ==>
                  r.state.lists[k] == m.lists[k])
            && r.state.editingListId == [] && r.state.editingContacts == [] && r.state.newNumber == []
            && r.state.name == m.name && r.state.contacts == m.contacts)
  {
    ReplaceContactsSpec(m.lists, m.editingListId, m.editingContacts);
  }

  /** `addNumber`: a blank entry is refused, then one that does not start with `+` (checked on
      the untrimmed text); otherwise the trimmed number is appended and the field cleared. */
  function AddNumber(m: Manager): Step<Manager> {
    if Trim(m.newNumber) == [] then Step(m, Some(EnterPhoneNumber))
    else if !StartsWith(m.newNumber, '+') then Step(m, Some(MustStartWithPlus))
    else Step(m.(editingContacts := m.editingContacts + [Trim(m.newNumber)], newNumber := []), None)
  }

  /** An accepted number is appended, trimmed, after the existing ones; it has no white space at
      its ends and starts with `+`: a leading `+` is not white space, so trimming keeps it. */
  lemma AddNumberSpec(m: Manager)
    ensures var r := AddNumber(m);
      && (r.alert.None? <==> (exists i :: 0 <= i < |m.newNumber| && !IsSpace(m.newNumber[i])) && StartsWith(m.newNumber, '+'))
      && (r.alert.Some? ==> r.state == m)
      && (r.alert.None? ==>
            && |r.state.editingContacts| == |m.editingContacts| + 1
            && r.state.editingContacts[..|m.editingContacts|] == m.editingContacts
            && r.state.editingContacts[|m.editingContacts|] == Trim(m.newNumber)
            && StartsWith(r.state.editingContacts[|m.editingContacts|], '+')
            && IsTrimmed(r.state.editingContacts[|m.editingContacts|])
            && r.state.newNumber == []
            && r.state.lists == m.lists && r.state.editingListId == m.editingListId)
  {
    TrimEmptyIff(m.newNumber);
    if StartsWith(m.newNumber, '+') {
      TrimKeepsPlus(m.newNumber);
      var r := AddNumber(m);
      assert r.state.editingContacts[..|m.editingContacts|] == m.editingContacts;
    }
  }

  /** A number that starts with `+` keeps it through trimming, since `+` is not white space. */
  lemma TrimKeepsPlus(s: string)
    requires StartsWith(s, '+')
    ensures StartsWith(Trim(s), '+') && IsTrimmed(Trim(s))
  {
    var start := TrimIsInfix(s);
    assert !IsSpace(s[0]);
    assert start == 0;
  }

  /** `filter((_, i) => i !== index)`, walking the sequence with the position `at` of its head. */
  function WithoutIndex<T>(s: seq<T>, index: int, at: int): seq<T>
    decreases |s|
  {
    if s == [] then []
    else (if at != index then [s[0]] else []) + WithoutIndex(s[1..], index, at + 1)
  }

  /** The filter on positions removes exactly the element at `index` and keeps the others in
      order; an index outside the sequence removes nothing. */
  lemma {:induction false} WithoutIndexSpec<T>(s: seq<T>, index: int, at: int)
    ensures WithoutIndex(s, index, at) ==
      if at <= index < at + |s| then s[..index - at] + s[index - at + 1..] else s
    decreases |s|
  {
    if s != [] {
      WithoutIndexSpec(s[1..], index, at + 1);
      if at == index {
        assert s[..0] + s[1..] == s[1..];
      } else if at < index < at + |s| {
        var j := index - at;
        var a, b := s[1..][..j - 1], s[1..][j..];
        assert WithoutIndex(s, index, at) == [s[0]] + (a + b);
        assert [s[0]] + (a + b) == ([s[0]] + a) + b;
        assert s[..j] == [s[0]] + a;
        assert s[j + 1..] == b;
      } else {
        assert s == [s[0]] + s[1..];
      }
    }
  }

  /** `deleteNumber(index)`. */
  function DeleteNumber(m: Manager, index: int): Manager {
    m.(editingContacts := WithoutIndex(m.editingContacts, index, 0))
  }

  /** Deleting removes the number at `index` from the editor, keeping the others in order; an
      index outside the editor removes nothing. The lists, the edited id, the number field and
      the new-list form stay as they were. */
  lemma DeleteNumberSpec(m: Manager, index: int)
    ensures DeleteNumber(m, index).editingContacts ==
      if 0 <= index < |m.editingContacts| then m.editingContacts[..index] + m.editingContacts[index + 1..]
      else m.editingContacts
    ensures DeleteNumber(m, index).lists == m.lists
    ensures DeleteNumber(m, index) == m.(editingContacts :=
      if 0 <= index < |m.editingContacts| then m.editingContacts[..index] + m.editingContacts[index + 1..]
      else m.editingContacts)
  {
    WithoutIndexSpec(m.editingContacts, index, 0);
  }

  /** `filter(x => x.id !== id)` over lists or templates, `idOf` giving the id. */
  function WithoutId<T>(s: seq<T>, idOf: T -> string, id: string): seq<T> {
    Filter(s, (x: T) => idOf(x) != id)
  }

  /** Nothing with the id is left, everything else is kept, as often and in the same order. */
  lemma WithoutIdSpec<T>(s: seq<T>, idOf: T -> string, id: string, x: T)
    ensures forall k :: 0 <= k < |WithoutId(s, idOf, id)| ==> idOf(WithoutId(s, idOf, id)[k]) != id
    ensures IsSubsequence(WithoutId(s, idOf, id), s)
    ensures idOf(x) != id ==> multiset(WithoutId(s, idOf, id))[x] == multiset(s)[x]
  {
    FilterIsSubsequence(s, (y: T) => idOf(y) != id);
    FilterMultiset(s, (y: T) => idOf(y) != id, x);
  }

  /** `deleteList(id)`, after the confirmation dialog answered `confirmed`. */
  function DeleteList(m: Manager, id: string, confirmed: bool): Manager {
    if !confirmed then m else m.(lists := WithoutId(m.lists, (l: ContactList) => l.id, id))
  }

  /** A confirmed delete leaves no list with the id and keeps every other list in order; a
      declined one changes nothing. */
  lemma DeleteListSpec(m: Manager, id: string, confirmed: bool, l: ContactList)
    ensures !confirmed ==> DeleteList(m, id, confirmed) == m
    ensures confirmed ==> forall k :: 0 <= k < |DeleteList(m, id, confirmed).lists| ==> DeleteList(m, id, confirmed).lists[k].id != id
    ensures confirmed ==> IsSubsequence(DeleteList(m, id, confirmed).lists, m.lists)
    ensures confirmed && l.id != id ==> multiset(DeleteList(m, id, confirmed).lists)[l] == multiset(m.lists)[l]
    ensures DeleteList(m, id, confirmed).(lists := m.lists) == m
  {
    WithoutIdSpec(m.lists, (x: ContactList) => x.id, id, l);
  }

  // ---------------------------------------------------------------------------------------
  // Templates
  // ---------------------------------------------------------------------------------------

  datatype TemplateForm = TemplateForm(templates: seq<MessageTemplate>, name: string, content: string)

  /** `TemplateManager.save`. */
  function SaveTemplate(f: TemplateForm, id: string): Step<TemplateForm> {
    if f.name == [] || f.content == [] then Step(f, Some(FillAllFields))
    else Step(TemplateForm(f.templates + [MessageTemplate(id, f.name, f.content)], [], []), Some(TemplateSaved))
  }

  /** An empty name or content is refused and changes nothing; otherwise exactly one template is
      appended after the existing ones and the form is cleared. */
  lemma SaveTemplateSpec(f: TemplateForm, id: string)
    ensures var r := SaveTemplate(f, id);
      && (r.alert == Some(TemplateSaved) <==> f.name != [] && f.content != [])
      && (r.alert != Some(TemplateSaved) ==> r.state == f)
      && (r.alert == Some(TemplateSaved) ==>
            && |r.state.templates| == |f.templates| + 1
            && r.state.templates[..|f.templates|] == f.templates
            && r.state.templates[|f.templates|] == MessageTemplate(id, f.name, f.content)
            && r.state.name == [] && r.state.content == [])
  {
    var r := SaveTemplate(f, id);
    if r.alert == Some(TemplateSaved) {
      assert r.state.templates[..|f.templates|] == f.templates;
    }
  }

  /** `TemplateManager.del(id)`, after the confirmation dialog answered `confirmed`. */
  function DeleteTemplate(f: TemplateForm, id: string, confirmed: bool): TemplateForm {
    if !confirmed then f else f.(templates := WithoutId(f.templates, (t: MessageTemplate) => t.id, id))
  }

  /** A confirmed delete leaves no template with the id and keeps every other template in order;
      a declined one changes nothing; the form's name and content stay in either case. */
  lemma DeleteTemplateSpec(f: TemplateForm, id: string, confirmed: bool, t: MessageTemplate)
    ensures !confirmed ==> DeleteTemplate(f, id, confirmed) == f
    ensures confirmed ==> forall k :: 0 <= k < |DeleteTemplate(f, id, confirmed).templates| ==> DeleteTemplate(f, id, confirmed).templates[k].id != id
    ensures confirmed ==> IsSubsequence(DeleteTemplate(f, id, confirmed).templates, f.templates)
    ensures confirmed && t.id != id ==> multiset(DeleteTemplate(f, id, confirmed).templates)[t] == multiset(f.templates)[t]
    ensures DeleteTemplate(f, id, confirmed).name == f.name && DeleteTemplate(f, id, confirmed).content == f.content
  {
    WithoutIdSpec(f.templates, (x: MessageTemplate) => x.id, id, t);
  }
}
