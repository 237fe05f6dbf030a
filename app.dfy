/**
 * The terminal application's state machine: the key map of each modal, the
 * list cursor, view switching, the proxy form (focus cycling, typing and
 * erasing, prefill from a service) and the caddy menu selection. The fields
 * filled by I/O (container listing, compose parsing, admin domains, status
 * messages) are outside the modelled state; the lists of services are given.
 */
module App {
  import opened Wrappers
  import opened Text
  import opened Model
  import opened Parser

  /** The key codes the application tells apart; every other key is `OtherKey`. */
  datatype KeyCode = Char(c: char) | Esc | Tab | BackTab | Enter | Backspace | Up | Down | OtherKey

  /** `AppAction`; `NoAction` is the source's `None`. */
  datatype AppAction =
    | Quit
    | SwitchView
    | MoveUp
    | MoveDown
    | JumpTop
    | JumpBottom
    | AddProxy
    | EditProxy
    | OpenBrowser
    | Refresh
    | CaddyMenu
    | Help
    | CloseModal
    | FormNextField
    | FormPrevField
    | FormConfirm
    | FormCharInput(c: char)
    | FormBackspace
    | CaddyStart
    | CaddyStop
    | CaddyRestart
    | SelectItem(index: nat)
    | NoAction

  predicate IsFormAction(a: AppAction) {
    a.FormNextField? || a.FormPrevField? || a.FormConfirm? || a.FormCharInput? || a.FormBackspace?
  }

  predicate IsMenuAction(a: AppAction) {
    a.SelectItem? || a.CaddyStart? || a.CaddyStop? || a.CaddyRestart?
  }

  /** The number of form fields (domain, port, TLS) and of caddy menu items (start, stop, restart). */
  const FieldCount: nat := 3
  const MenuCount: nat := 3

  /**
   * `handle_key`: the action for a key, which depends only on the open modal and
   * on the caddy menu selection.
   */
  function HandleKey(modal: ActiveModal, caddySelected: nat, key: KeyCode): (a: AppAction)
    ensures key.Esc? ==> a == (if modal.NoModal? then Quit else CloseModal)
    ensures modal.NoModal? ==> !IsFormAction(a) && !IsMenuAction(a) && !a.CloseModal?
    ensures modal.AddProxyModal? || modal.EditProxyModal? ==>
      IsFormAction(a) || a.CloseModal? || a.NoAction?
    ensures (modal.AddProxyModal? || modal.EditProxyModal?) && key.Char? ==> a == FormCharInput(key.c)
    ensures modal.CaddyMenuModal? ==> IsMenuAction(a) || a.CloseModal? || a.NoAction?
    ensures modal.HelpModal? ==> a.CloseModal? || a.NoAction?
    ensures a.SelectItem? && caddySelected < MenuCount ==> a.index < MenuCount
    ensures a.CaddyStart? ==> caddySelected == 0
    ensures a.CaddyStop? ==> caddySelected == 1
    ensures a.CaddyRestart? ==> caddySelected >= 2
    // In the caddy menu: `j`/Down wraps forward, `k`/Up saturates at the first
    // item, and Enter runs the selected command.
    ensures modal.CaddyMenuModal? && (key == Char('j') || key.Down?) ==> a == SelectItem((caddySelected + 1) % MenuCount)
    ensures modal.CaddyMenuModal? && (key == Char('k') || key.Up?) ==>
      a == SelectItem(if caddySelected > 0 then caddySelected - 1 else 0)
    ensures modal.CaddyMenuModal? && key.Enter? ==>
      a == (if caddySelected == 0 then CaddyStart else if caddySelected == 1 then CaddyStop else CaddyRestart)
  {
    match modal
    case NoModal =>
      (match key
       case Char(c) =>
         if c == 'q' then Quit
         else if c == 'j' then MoveDown
         else if c == 'k' then MoveUp
         else if c == 'g' then JumpTop
         else if c == 'G' then JumpBottom
         else if c == 'a' then AddProxy
         else if c == 'e' then EditProxy
         else if c == 'o' then OpenBrowser
         else if c == 'r' then Refresh
         else if c == 'c' then CaddyMenu
         else if c == '?' then Help
         else NoAction
       case Esc => Quit
       case Tab => SwitchView
       case Down => MoveDown
       case Up => MoveUp
       case _ => NoAction)
    case AddProxyModal | EditProxyModal =>
      (match key
       case Esc => CloseModal
       case Tab => FormNextField
       case BackTab => FormPrevField
       case Enter => FormConfirm
       case Backspace => FormBackspace
       case Char(c) => FormCharInput(c)
       case _ => NoAction)
    case CaddyMenuModal =>
      (match key
       case Esc => CloseModal
       case Char(c) =>
         if c == 'q' then CloseModal
         else if c == 'j' then SelectItem((caddySelected + 1) % MenuCount)
         else if c == 'k' then SelectItem(if caddySelected > 0 then caddySelected - 1 else 0)
         else NoAction
       case Down => SelectItem((caddySelected + 1) % MenuCount)
       case Up => SelectItem(if caddySelected > 0 then caddySelected - 1 else 0)
       case Enter =>
         if caddySelected == 0 then CaddyStart
         else if caddySelected == 1 then CaddyStop
         else CaddyRestart
       case _ => NoAction)
    case HelpModal =>
      (match key
       case Esc => CloseModal
       case Char(c) => if c == 'q' || c == '?' then CloseModal else NoAction
       case _ => NoAction)
  }

  /** The fields of `App` that the key handling reads and writes. */
  datatype Snapshot = Snapshot(
    view: View,
    services: seq<Service>,
    globalServices: seq<Service>,
    selected: nat,
    modal: ActiveModal,
    form: FormState,
    caddySelected: nat,
    hasProject: bool)

  /** `all_services`: the list of the current view. */
  function Listed(st: Snapshot): (r: seq<Service>)
    ensures r == st.services || r == st.globalServices
    ensures st.view.Global? ==> r == st.globalServices
  {
    if st.view.Project? then st.services else st.globalServices
  }

  /**
   * The invariant the key handling keeps: the cursor is on an entry of the list
   * (or at 0 when the list is empty or was replaced), and the form focus and
   * the menu selection are in range.
   */
  predicate Valid(st: Snapshot) {
    (st.selected == 0 || st.selected < |Listed(st)|)
    && st.form.focusedField < FieldCount
    && st.caddySelected < MenuCount
  }

  /** The text of form field `k`: 0 the domain, 1 the port, 2 the TLS policy. */
  function Field(f: FormState, k: nat): string {
    if k == 0 then f.domain else if k == 1 then f.port else if k == 2 then f.tls else ""
  }

  /** `FormCharInput`: `c` pushed onto the focused field. */
  function Typed(f: FormState, c: char): (r: FormState)
    ensures r.focusedField == f.focusedField && r.serviceIndex == f.serviceIndex
    ensures forall k: nat :: k < FieldCount ==>
      Field(r, k) == if k == f.focusedField then Field(f, k) + [c] else Field(f, k)
  {
    if f.focusedField == 0 then f.(domain := f.domain + [c])
    else if f.focusedField == 1 then f.(port := f.port + [c])
    else if f.focusedField == 2 then f.(tls := f.tls + [c])
    else f
  }

  /** `String::pop`: the last character removed; an empty string stays empty. */
  function Pop(s: string): (r: string)
    ensures |s| > 0 ==> r + [s[|s| - 1]] == s
    ensures |s| == 0 ==> r == s
  {
    if |s| > 0 then s[..|s| - 1] else s
  }

  /** `FormBackspace`: the last character of the focused field removed. */
  function Erased(f: FormState): (r: FormState)
    ensures r.focusedField == f.focusedField && r.serviceIndex == f.serviceIndex
    ensures forall k: nat :: k < FieldCount ==>
      Field(r, k) == if k == f.focusedField then Pop(Field(f, k)) else Field(f, k)
  {
    if f.focusedField == 0 then f.(domain := Pop(f.domain))
    else if f.focusedField == 1 then f.(port := Pop(f.port))
    else if f.focusedField == 2 then f.(tls := Pop(f.tls))
    else f
  }

  /** The port text the add form starts with: the first available port, else 80. */
  function FirstPortOr80(s: Service): U16 {
    if |s.availablePorts| > 0 then s.availablePorts[0] else 80
  }

  /**
   * `open_add_form`: for an entry of the current list, a form prefilled with
   * the default domain, the first available port (else 80) and TLS `internal`,
   * focused on the first field, in the add modal. Any other index changes nothing.
   */
  function AddForm(st: Snapshot, i: nat): (r: Snapshot)
    ensures i >= |Listed(st)| ==> r == st
    ensures i < |Listed(st)| ==> r == st.(form := r.form, modal := AddProxyModal)
    ensures i < |Listed(st)| ==>
      r.form.focusedField == 0 && r.form.serviceIndex == i && r.form.tls == DefaultTls
    ensures i < |Listed(st)| ==> r.form.domain == DefaultDomain(Listed(st)[i].name, Listed(st)[i].project)
    ensures i < |Listed(st)| ==> r.form.port == ToDecimal(FirstPortOr80(Listed(st)[i]))
  {
    var list := Listed(st);
    if i < |list| then
      var s := list[i];
      st.(form := FormState(0, DefaultDomain(s.name, s.project), ToDecimal(FirstPortOr80(s)), DefaultTls, i),
          modal := AddProxyModal)
    else st
  }

  /**
   * `open_edit_form`: for an entry of the current list, a form holding its route
   * (or, without one, the default domain, port 80 and TLS `internal`), focused
   * on the first field, in the edit modal. Any other index changes nothing.
   */
  function EditForm(st: Snapshot, i: nat): (r: Snapshot)
    ensures i >= |Listed(st)| ==> r == st
    ensures i < |Listed(st)| ==> r == st.(form := r.form, modal := EditProxyModal)
    ensures i < |Listed(st)| ==> r.form.focusedField == 0 && r.form.serviceIndex == i
    ensures i < |Listed(st)| && Listed(st)[i].proxy.Some? ==>
      r.form.domain == Listed(st)[i].proxy.value.domain && r.form.tls == Listed(st)[i].proxy.value.tls
    ensures i < |Listed(st)| && Listed(st)[i].proxy.Some? ==> r.form.port == ToDecimal(Listed(st)[i].proxy.value.port)
    ensures i < |Listed(st)| && Listed(st)[i].proxy.None? ==>
      r.form.domain == DefaultDomain(Listed(st)[i].name, Listed(st)[i].project)
      && r.form.port == ToDecimal(80) && r.form.tls == DefaultTls
  {
    var list := Listed(st);
    if i < |list| then
      var s := list[i];
      var form :=
        match s.proxy
        case Some(p) => FormState(0, p.domain, ToDecimal(p.port), p.tls, i)
        case None => FormState(0, DefaultDomain(s.name, s.project), ToDecimal(80), DefaultTls, i);
      st.(form := form, modal := EditProxyModal)
    else st
  }

  /**
   * The actions whose effect on these fields needs no I/O result: all but
   * `Refresh` and `FormConfirm`, which reload the lists from Docker and the
   * compose files. `OpenBrowser` reads only; the caddy commands close the menu
   * whatever the command does.
   */
  predicate Modelled(a: AppAction) {
    !a.Refresh? && !a.FormConfirm?
  }

  /** `current_selected_service`: the service at the cursor, when the cursor is on one. */
  function AtCursor(st: Snapshot): (r: Option<Service>)
    ensures r.Some? <==> st.selected < |Listed(st)|
    ensures r.Some? ==> r.value == Listed(st)[st.selected]
  {
    if st.selected < |Listed(st)| then Some(Listed(st)[st.selected]) else None
  }

  /**
   * `execute_action` on the modelled fields. The service lists and
   * `has_project` never change, and only the cursor moves for a cursor action.
   */
  function Step(st: Snapshot, a: AppAction): (r: Snapshot)
    requires Modelled(a)
    ensures r.services == st.services && r.globalServices == st.globalServices
    ensures r.hasProject == st.hasProject
    ensures a.MoveDown? || a.MoveUp? || a.JumpTop? || a.JumpBottom? ==> r == st.(selected := r.selected)
    ensures IsFormAction(a) ==> r == st.(form := r.form)
  {
    match a
    case Quit => st
    case SwitchView =>
      if st.hasProject then
        st.(view := if st.view.Project? then Global else Project, selected := 0)
      else st
    case MoveDown =>
      var len := |Listed(st)|;
      if len > 0 && st.selected < len - 1 then st.(selected := st.selected + 1) else st
    case MoveUp => if st.selected > 0 then st.(selected := st.selected - 1) else st
    case JumpTop => st.(selected := 0)
    case JumpBottom =>
      var len := |Listed(st)|;
      if len > 0 then st.(selected := len - 1) else st
    case AddProxy =>
      var s := AtCursor(st);
      if s.Some? && s.value.proxy.None? then AddForm(st, st.selected) else st
    case EditProxy =>
      var s := AtCursor(st);
      if s.Some? && s.value.proxy.Some? then EditForm(st, st.selected) else st
    case OpenBrowser => st
    case CaddyMenu => st.(modal := CaddyMenuModal, caddySelected := 0)
    case Help => st.(modal := HelpModal)
    case CloseModal => st.(modal := NoModal)
    case FormNextField => st.(form := st.form.(focusedField := (st.form.focusedField + 1) % FieldCount))
    case FormPrevField =>
      st.(form := st.form.(focusedField := if st.form.focusedField > 0 then st.form.focusedField - 1 else 0))
    case FormCharInput(c) => st.(form := Typed(st.form, c))
    case FormBackspace => st.(form := Erased(st.form))
    case CaddyStart => st.(modal := NoModal)
    case CaddyStop => st.(modal := NoModal)
    case CaddyRestart => st.(modal := NoModal)
    case SelectItem(i) => st.(caddySelected := i)
    case NoAction => st
  }

  /** A key press: the key is mapped to its action, and the action is performed. */
  function Press(st: Snapshot, key: KeyCode): Snapshot
    requires Modelled(HandleKey(st.modal, st.caddySelected, key))
  {
    Step(st, HandleKey(st.modal, st.caddySelected, key))
  }

  /**
   * Every modelled action keeps the invariant, provided a menu selection it
   * makes is in range (as every selection the key map makes is).
   */
  lemma StepKeepsValid(st: Snapshot, a: AppAction)
    requires Valid(st) && Modelled(a)
    requires a.SelectItem? ==> a.index < MenuCount
    ensures Valid(Step(st, a))
  {
    if a.AddProxy? {
      if AtCursor(st).Some? && AtCursor(st).value.proxy.None? {
        assert Listed(AddForm(st, st.selected)) == Listed(st);
      }
    } else if a.EditProxy? {
      if AtCursor(st).Some? && AtCursor(st).value.proxy.Some? {
        assert Listed(EditForm(st, st.selected)) == Listed(st);
      }
    } else if !a.SwitchView? {
      assert Listed(Step(st, a)) == Listed(st);
    }
  }

  /** So every key press keeps the invariant. */
  lemma PressKeepsValid(st: Snapshot, key: KeyCode)
    requires Valid(st) && Modelled(HandleKey(st.modal, st.caddySelected, key))
    ensures Valid(Press(st, key))
  {
    StepKeepsValid(st, HandleKey(st.modal, st.caddySelected, key));
  }

  /** Moving down never leaves the list, and moving up stops at the top. */
  lemma CursorBounds(st: Snapshot)
    requires Valid(st)
    ensures |Listed(st)| > 0 ==> Step(st, MoveDown).selected < |Listed(st)|
    ensures Step(st, MoveDown).selected == st.selected || Step(st, MoveDown).selected == st.selected + 1
    ensures st.selected == 0 ==> Step(st, MoveUp).selected == 0
    ensures |Listed(st)| > 0 ==> Step(st, JumpBottom).selected == |Listed(st)| - 1
  {
  }

  /** Three presses of Tab in a form bring the focus back where it was. */
  lemma {:induction false} FocusCycles(st: Snapshot)
    requires st.form.focusedField < FieldCount
    ensures Step(Step(Step(st, FormNextField), FormNextField), FormNextField) == st
  {
    var f := st.form.focusedField;
    assert ((((f + 1) % 3) + 1) % 3 + 1) % 3 == f;
    assert st.(form := st.form.(focusedField := f)) == st;
  }

  /** Shift-Tab stops at the first field rather than wrapping. */
  lemma BackFocusSaturates(st: Snapshot)
    ensures st.form.focusedField == 0 ==> Step(st, FormPrevField) == st
    ensures st.form.focusedField > 0 ==>
      Step(st, FormPrevField).form.focusedField == st.form.focusedField - 1
  {
    if st.form.focusedField == 0 {
      assert st.form.(focusedField := 0) == st.form;
    }
  }

  /** Typing a character and then erasing one leaves the form as it was. */
  lemma TypeThenErase(st: Snapshot, c: char)
    requires st.form.focusedField < FieldCount
    ensures Step(Step(st, FormCharInput(c)), FormBackspace) == st
  {
    var t := Step(st, FormCharInput(c));
    assert t == st.(form := Typed(st.form, c));
    ErasedTyped(st.form, c);
  }

  lemma ErasedTyped(f: FormState, c: char)
    requires f.focusedField < FieldCount
    ensures Erased(Typed(f, c)) == f
  {
    if f.focusedField == 0 {
      assert Pop(f.domain + [c]) == f.domain;
    } else if f.focusedField == 1 {
      assert Pop(f.port + [c]) == f.port;
    } else {
      assert Pop(f.tls + [c]) == f.tls;
    }
  }

  /** Erasing from an empty focused field changes nothing. */
  lemma EraseEmpty(st: Snapshot)
    requires st.form.focusedField < FieldCount && Field(st.form, st.form.focusedField) == ""
    ensures Step(st, FormBackspace) == st
  {
    var f := st.form;
    var g := Erased(f);
    assert Field(g, 0) == Field(f, 0) && Field(g, 1) == Field(f, 1) && Field(g, 2) == Field(f, 2);
    assert g == f;
  }

  /** With a project, two view switches return to the same view at the top of the list. */
  lemma SwitchViewTwice(st: Snapshot)
    ensures st.hasProject ==> Step(Step(st, SwitchView), SwitchView) == st.(selected := 0)
    ensures !st.hasProject ==> Step(st, SwitchView) == st
  {
  }

  /** In the caddy menu, three presses of `j` come back to the same item. */
  lemma {:induction false} MenuCycles(st: Snapshot)
    requires st.modal.CaddyMenuModal? && st.caddySelected < MenuCount
    ensures Press(Press(Press(st, Char('j')), Char('j')), Char('j')) == st
  {
    var s := st.caddySelected;
    assert (((s + 1) % 3 + 1) % 3 + 1) % 3 == s;
    var a := Press(st, Char('j'));
    assert a == st.(caddySelected := (s + 1) % 3);
    var b := Press(a, Char('j'));
    assert b == st.(caddySelected := ((s + 1) % 3 + 1) % 3);
  }

  /** Enter in the caddy menu runs the selected command and closes the menu. */
  lemma MenuEnter(st: Snapshot)
    requires st.modal.CaddyMenuModal?
    ensures Press(st, Enter) == st.(modal := NoModal)
  {
  }

  /** `save_proxy`'s reading of the form: the port text as a u16, else 80. */
  function SavedConfig(f: FormState): (p: ProxyConfig)
    ensures p.domain == f.domain && p.tls == f.tls
    ensures ParseU16(f.port).Some? ==> p.port == ParseU16(f.port).value
    ensures ParseU16(f.port).None? ==> p.port == 80
  {
    ProxyConfig(f.domain, ParseU16(f.port).GetOr(80), f.tls)
  }

  /**
   * Confirming an untouched add form saves the default domain, the first
   * available port (else 80) and TLS `internal`.
   */
  lemma AddFormSavesDefaults(st: Snapshot, i: nat)
    requires i < |Listed(st)|
    ensures SavedConfig(AddForm(st, i).form)
      == ProxyConfig(DefaultDomain(Listed(st)[i].name, Listed(st)[i].project), FirstPortOr80(Listed(st)[i]), DefaultTls)
  {
    ParseU16RoundTrip(FirstPortOr80(Listed(st)[i]));
  }

  /** Confirming an untouched edit form saves the route the service already had. */
  lemma EditFormSavesSameRoute(st: Snapshot, i: nat)
    requires i < |Listed(st)| && Listed(st)[i].proxy.Some?
    ensures SavedConfig(EditForm(st, i).form) == Listed(st)[i].proxy.value
  {
    ParseU16RoundTrip(Listed(st)[i].proxy.value.port);
  }

  /**
   * The file and compose service name `save_proxy` writes to: the service the
   * form was opened for, when it is in the current list and comes from a
   * compose file. A runtime service, or an index past the list, saves nothing.
   */
  function SaveTarget(st: Snapshot): (r: Option<(Path, string)>)
    ensures r.Some? <==> st.form.serviceIndex < |Listed(st)| && Listed(st)[st.form.serviceIndex].source.Compose?
    ensures r.Some? ==>
      var src := Listed(st)[st.form.serviceIndex].source;
      r.value == (src.file, src.serviceName)
  {
    var list := Listed(st);
    if st.form.serviceIndex < |list| then
      match list[st.form.serviceIndex].source
      case Compose(file, name) => Some((file, name))
      case Runtime => None
    else None
  }

  /** `proxied_services`: the entries with a route, in list order. */
  function Proxied(list: seq<Service>): (r: seq<Service>)
    ensures forall s :: s in r <==> s in list && s.proxy.Some?
  {
    if |list| == 0 then []
    else (if list[0].proxy.Some? then [list[0]] else []) + Proxied(list[1..])
  }

  /** `unproxied_services`: the entries without a route, in list order. */
  function Unproxied(list: seq<Service>): (r: seq<Service>)
    ensures forall s :: s in r <==> s in list && s.proxy.None?
  {
    if |list| == 0 then []
    else (if list[0].proxy.None? then [list[0]] else []) + Unproxied(list[1..])
  }

  /** The two filters split the list: every entry lands in exactly one of them. */
  lemma {:induction false} ProxiedPartition(list: seq<Service>)
    ensures multiset(Proxied(list)) + multiset(Unproxied(list)) == multiset(list)
    ensures |Proxied(list)| + |Unproxied(list)| == |list|
  {
    if |list| > 0 {
      ProxiedPartition(list[1..]);
      assert list == [list[0]] + list[1..];
    }
  }

  /** `proxied_services` keeps list order: filtering a concatenation concatenates the filtered parts. */
  lemma {:induction false} ProxiedKeepsOrder(a: seq<Service>, b: seq<Service>)
    ensures Proxied(a + b) == Proxied(a) + Proxied(b)
  {
    if |a| == 0 {
      assert a + b == b;
    } else {
      var head := if a[0].proxy.Some? then [a[0]] else [];
      var ab := a + b;
      assert ab[0] == a[0];
      assert ab[1..] == a[1..] + b;
      assert Proxied(ab) == head + Proxied(ab[1..]);
      assert Proxied(a) == head + Proxied(a[1..]);
      ProxiedKeepsOrder(a[1..], b);
      assert head + (Proxied(a[1..]) + Proxied(b)) == (head + Proxied(a[1..])) + Proxied(b);
    }
  }

  /** `unproxied_services` keeps list order in the same way. */
  lemma {:induction false} UnproxiedKeepsOrder(a: seq<Service>, b: seq<Service>)
    ensures Unproxied(a + b) == Unproxied(a) + Unproxied(b)
  {
    if |a| == 0 {
      assert a + b == b;
    } else {
      var head := if a[0].proxy.None? then [a[0]] else [];
      var ab := a + b;
      assert ab[0] == a[0];
      assert ab[1..] == a[1..] + b;
      assert Unproxied(ab) == head + Unproxied(ab[1..]);
      assert Unproxied(a) == head + Unproxied(a[1..]);
      UnproxiedKeepsOrder(a[1..], b);
      assert head + (Unproxied(a[1..]) + Unproxied(b)) == (head + Unproxied(a[1..])) + Unproxied(b);
    }
  }

  /** The fields of `App` that the key handling reads and writes. */
  class App {
    var view: View
    var services: seq<Service>
    var globalServices: seq<Service>
    var selected: nat
    var modal: ActiveModal
    var form: FormState
    var caddySelected: nat
    var hasProject: bool

    function State(): Snapshot
      reads this
    {
      Snapshot(view, services, globalServices, selected, modal, form, caddySelected, hasProject)
    }

    /**
     * The end of `App::new`: the project view when compose files were found,
     * else the global view; cursor, menu selection at 0, no modal, default form.
     */
    constructor (services: seq<Service>, globalServices: seq<Service>, hasProject: bool)
      ensures State() == Snapshot(if hasProject then Project else Global, services, globalServices,
                                  0, NoModal, DefaultForm(), 0, hasProject)
      ensures Valid(State())
    {
      this.view := if hasProject then Project else Global;
      this.services := services;
      this.globalServices := globalServices;
      this.selected := 0;
      this.modal := NoModal;
      this.form := DefaultForm();
      this.caddySelected := 0;
      this.hasProject := hasProject;
    }

    /** `all_services`. */
    method AllServices() returns (list: seq<Service>)
      ensures list == Listed(State())
    {
      list := if view.Project? then services else globalServices;
    }

    /** `open_add_form`. */
    method OpenAddForm(serviceIndex: nat)
      modifies this
      ensures State() == AddForm(old(State()), serviceIndex)
    {
      var list := AllServices();
      if serviceIndex < |list| {
        var service := list[serviceIndex];
        var port := if |service.availablePorts| > 0 then service.availablePorts[0] else 80;
        form := FormState(0, DefaultDomain(service.name, service.project), ToDecimal(port), DefaultTls, serviceIndex);
        modal := AddProxyModal;
      }
    }

    /** `open_edit_form`. */
    method OpenEditForm(serviceIndex: nat)
      modifies this
      ensures State() == EditForm(old(State()), serviceIndex)
    {
      var list := AllServices();
      if serviceIndex < |list| {
        var service := list[serviceIndex];
        var domain, port, tls;
        if service.proxy.Some? {
          var proxy := service.proxy.value;
          domain, port, tls := proxy.domain, ToDecimal(proxy.port), proxy.tls;
        } else {
          domain, port, tls := DefaultDomain(service.name, service.project), ToDecimal(80), DefaultTls;
        }
        form := FormState(0, domain, port, tls, serviceIndex);
        modal := EditProxyModal;
      }
    }

    /** `close_modal`. */
    method CloseModal()
      modifies this`modal
      ensures State() == old(State()).(modal := NoModal)
    {
      modal := NoModal;
    }

    /**
     * `execute_action` for the modelled actions: the new fields are `Step` of
     * the old ones, and the result says whether to quit.
     */
    method Execute(action: AppAction) returns (quit: bool)
      requires Modelled(action)
      modifies this
      ensures quit <==> action.Quit?
      ensures State() == Step(old(State()), action)
    {
      quit := false;
      match action {
        case Quit =>
          quit := true;
        case SwitchView =>
          if hasProject {
            view := if view.Project? then Global else Project;
            selected := 0;
          }
        case MoveDown =>
          var list := AllServices();
          var len := |list|;
          if len > 0 && selected < len - 1 {
            selected := selected + 1;
          }
        case MoveUp =>
          if selected > 0 {
            selected := selected - 1;
          }
        case JumpTop =>
          selected := 0;
        case JumpBottom =>
          var list := AllServices();
          var len := |list|;
          if len > 0 {
            selected := len - 1;
          }
        case AddProxy =>
          var list := AllServices();
          if selected < |list| && list[selected].proxy.None? {
            OpenAddForm(selected);
          }
        case EditProxy =>
          var list := AllServices();
          if selected < |list| && list[selected].proxy.Some? {
            OpenEditForm(selected);
          }
        case OpenBrowser =>
        case CaddyMenu =>
          modal := CaddyMenuModal;
          caddySelected := 0;
        case Help =>
          modal := HelpModal;
        case CloseModal =>
          CloseModal();
        case FormNextField =>
          form := form.(focusedField := (form.focusedField + 1) % FieldCount);
        case FormPrevField =>
          form := form.(focusedField := if form.focusedField > 0 then form.focusedField - 1 else 0);
        case FormCharInput(c) =>
          if form.focusedField == 0 {
            form := form.(domain := form.domain + [c]);
          } else if form.focusedField == 1 {
            form := form.(port := form.port + [c]);
          } else if form.focusedField == 2 {
            form := form.(tls := form.tls + [c]);
          }
        case FormBackspace =>
          if form.focusedField == 0 {
            form := form.(domain := Pop(form.domain));
          } else if form.focusedField == 1 {
            form := form.(port := Pop(form.port));
          } else if form.focusedField == 2 {
            form := form.(tls := Pop(form.tls));
          }
        case CaddyStart =>
          CloseModal();
        case CaddyStop =>
          CloseModal();
        case CaddyRestart =>
          CloseModal();
        case SelectItem(idx) =>
          caddySelected := idx;
        case NoAction =>
      }
    }
  }
}
