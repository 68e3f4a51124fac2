/** Provider profiles, network profiles and bindings: every command keeps every reference good. */
module Settings {
  import opened Options

  type Id = string

  datatype Capability = Ocr | Translation | Inpaint | Detection | Rendering
  datatype Scope = Global | Book(book: Id) | Chapter(chapter: Id)
  datatype Network = Network(name: string, mode: string, proxy: string, verifyTls: bool)
  datatype Provider = Provider(
    name: string, kind: string, capabilities: set<Capability>, endpoint: string, model: string,
    network: Option<Id>, enabled: bool)
  datatype Binding = Binding(scope: Scope, capability: Capability, profile: Id)

  datatype Stores = Stores(
    networks: map<Id, Network>, providers: map<Id, Provider>, bindings: seq<Binding>, standard: Option<Id>)

  /** What the commands look up elsewhere: live books, live chapters with their book, profiles of protected runs. */
  datatype Surroundings = Surroundings(
    books: set<Id>, chapters: map<Id, Id>, busyProviders: set<Id>, busyNetworks: set<Id>)

  datatype Answer =
    | Done | Bound(profile: Option<Id>, source: Option<Scope>) | NotFound | Conflict | Invalid | Unavailable

  // ------------------------------------------------------- bindings

  predicate SameKey(b: Binding, scope: Scope, capability: Capability) { b.scope == scope && b.capability == capability }

  /** The binding list has no scope and capability twice. */
  predicate Unique(bindings: seq<Binding>) {
    forall i, j :: 0 <= i < j < |bindings| ==> !SameKey(bindings[j], bindings[i].scope, bindings[i].capability)
  }

  function BoundAt(bindings: seq<Binding>, scope: Scope, capability: Capability): Option<Id> {
    if |bindings| == 0 then None
    else if SameKey(bindings[0], scope, capability) then Some(bindings[0].profile)
    else BoundAt(bindings[1..], scope, capability)
  }

  function Without(bindings: seq<Binding>, scope: Scope, capability: Capability): seq<Binding> {
    if |bindings| == 0 then []
    else
      Without(bindings[..|bindings| - 1], scope, capability)
      + if SameKey(bindings[|bindings| - 1], scope, capability) then [] else [bindings[|bindings| - 1]]
  }

  /** From the narrowest scope of the context outwards. */
  function Wanted(book: Option<Id>, chapter: Option<Id>): seq<Scope> {
    (if chapter.Some? then [Chapter(chapter.value)] else []) + (if book.Some? then [Book(book.value)] else [])
    + [Global]
  }

  function Resolve(bindings: seq<Binding>, scopes: seq<Scope>, capability: Capability): (Option<Id>, Option<Scope>) {
    if |scopes| == 0 then (None, None)
    else if BoundAt(bindings, scopes[0], capability).Some? then
      (BoundAt(bindings, scopes[0], capability), Some(scopes[0]))
    else Resolve(bindings, scopes[1..], capability)
  }

  // ------------------------------------------------------- what a command checks

  datatype Context = Known(book: Option<Id>, chapter: Option<Id>) | Refused(answer: Answer)

  /** The live book and chapter named; a chapter brings its book with it. */
  function Validated(env: Surroundings, book: Option<Id>, chapter: Option<Id>): Context {
    if book.Some? && book.value !in env.books then Refused(NotFound)
    else if chapter.None? then Known(book, None)
    else if chapter.value !in env.chapters then Refused(NotFound)
    else if book.Some? && book.value != env.chapters[chapter.value] then Refused(Conflict)
    else if env.chapters[chapter.value] !in env.books then Refused(NotFound)
    else Known(Some(env.chapters[chapter.value]), chapter)
  }

  function ScopeContext(env: Surroundings, scope: Scope): Context {
    match scope
    case Global => Known(None, None)
    case Book(book) => Validated(env, Some(book), None)
    case Chapter(chapter) => Validated(env, None, Some(chapter))
  }

  /** A profile can serve a capability when it exists, is enabled, offers it, and its network profile exists. */
  function Usable(s: Stores, profile: Id, capability: Capability): Answer {
    if profile !in s.providers then NotFound
    else if !s.providers[profile].enabled || capability !in s.providers[profile].capabilities then Conflict
    else if s.providers[profile].network.Some? && s.providers[profile].network.value !in s.networks then NotFound
    else Done
  }

  function ProviderValues(s: Stores, p: Provider): Answer {
    if p.capabilities == {} then Invalid
    else if p.network.Some? && p.network.value !in s.networks then NotFound
    else Done
  }

  // ------------------------------------------------------- the commands

  datatype Command =
    | CreateNetwork(id: Id, network: Network) | UpdateNetwork(id: Id, network: Network) | DeleteNetwork(id: Id)
    | SetDefault(id: Id) | ClearDefault
    | CreateProvider(id: Id, provider: Provider) | UpdateProvider(id: Id, provider: Provider) | DeleteProvider(id: Id)
    | SetBinding(scope: Scope, capability: Capability, profile: Id)
    | ClearBinding(scope: Scope, capability: Capability)

  /** The answer a command gives; only one that is `Done` changes anything. */
  function AnswerTo(s: Stores, env: Surroundings, c: Command): Answer {
    match c
    case CreateNetwork(id, _) => if id in s.networks then Unavailable else Done
    case UpdateNetwork(id, _) => if id !in s.networks then NotFound else Done
    case DeleteNetwork(id) =>
      if id !in s.networks then NotFound
      else if s.standard == Some(id) || id in env.busyNetworks
              || exists p :: p in s.providers && s.providers[p].network == Some(id)
      then Conflict else Done
    case SetDefault(id) => if id !in s.networks then NotFound else Done
    case ClearDefault => Done
    case CreateProvider(id, provider) =>
      if ProviderValues(s, provider) != Done then ProviderValues(s, provider)
      else if id in s.providers then Unavailable else Done
    case UpdateProvider(id, provider) => if id !in s.providers then NotFound else ProviderValues(s, provider)
    case DeleteProvider(id) =>
      if id !in s.providers then NotFound
      else if !Unique(s.bindings) then Unavailable
      else if (exists b :: b in s.bindings && b.profile == id) || id in env.busyProviders then Conflict else Done
    case SetBinding(scope, capability, profile) =>
      if ScopeContext(env, scope).Refused? then ScopeContext(env, scope).answer
      else if Usable(s, profile, capability) != Done then Usable(s, profile, capability)
      else if !Unique(s.bindings) then Unavailable else Done
    case ClearBinding(scope, _) =>
      if ScopeContext(env, scope).Refused? then ScopeContext(env, scope).answer
      else if !Unique(s.bindings) then Unavailable else Done
  }

  function Effect(s: Stores, c: Command): Stores {
    match c
    case CreateNetwork(id, network) => s.(networks := s.networks[id := network])
    case UpdateNetwork(id, network) => s.(networks := s.networks[id := network])
    case DeleteNetwork(id) => s.(networks := s.networks - {id})
    case SetDefault(id) => s.(standard := Some(id))
    case ClearDefault => s.(standard := None)
    case CreateProvider(id, provider) => s.(providers := s.providers[id := provider])
    case UpdateProvider(id, provider) =>
      s.(providers :=
        s.providers[id := if id in s.providers then provider.(kind := s.providers[id].kind) else provider])
    case DeleteProvider(id) => s.(providers := s.providers - {id})
    case SetBinding(scope, capability, profile) =>
      s.(bindings := Without(s.bindings, scope, capability) + [Binding(scope, capability, profile)])
    case ClearBinding(scope, capability) => s.(bindings := Without(s.bindings, scope, capability))
  }

  function Exec(s: Stores, env: Surroundings, c: Command): Stores {
    if AnswerTo(s, env, c) == Done then Effect(s, c) else s
  }

  /** Commands, each in the surroundings it meets. */
  function Run(s: Stores, commands: seq<(Surroundings, Command)>): Stores
    decreases |commands|
  {
    if |commands| == 0 then s else Run(Exec(s, commands[0].0, commands[0].1), commands[1..])
  }

  const EMPTY := Stores(map[], map[], [], None)

  // ------------------------------------------------------- references

  ghost predicate ProviderFits(s: Stores, p: Id) {
    p in s.providers && s.providers[p].network.Some? ==> s.providers[p].network.value in s.networks
  }

  /** Every reference names something that exists, and no binding is there twice. */
  ghost predicate Intact(s: Stores) {
    (forall b :: b in s.bindings ==> b.profile in s.providers)
    && (forall p :: ProviderFits(s, p))
    && (s.standard.Some? ==> s.standard.value in s.networks)
    && Unique(s.bindings)
  }

  lemma {:induction false} WithoutIs(bindings: seq<Binding>, scope: Scope, capability: Capability, b: Binding)
    ensures b in Without(bindings, scope, capability) <==> b in bindings && !SameKey(b, scope, capability)
    decreases |bindings|
  {
    if |bindings| > 0 {
      var n := |bindings| - 1;
      assert bindings == bindings[..n] + [bindings[n]];
      WithoutIs(bindings[..n], scope, capability, b);
    }
  }

  /** What is kept stands in its order: of two lists in a row, what is kept of the one and then of the other. */
  lemma {:induction false} WithoutInOrder(a: seq<Binding>, b: seq<Binding>, scope: Scope, capability: Capability)
    ensures Without(a + b, scope, capability) == Without(a, scope, capability) + Without(b, scope, capability)
    ensures |a| == 1 ==> Without(a, scope, capability) == if SameKey(a[0], scope, capability) then [] else a
    decreases |b|
  {
    assert |a| == 1 ==> a == [a[0]] && Without(a[..0], scope, capability) == [];
    if |b| == 0 {
      assert a + b == a;
    } else {
      assert (a + b)[..|a + b| - 1] == a + b[..|b| - 1];
      WithoutInOrder(a, b[..|b| - 1], scope, capability);
    }
  }

  lemma {:induction false} WithoutKeepsUnique(bindings: seq<Binding>, scope: Scope, capability: Capability)
    requires Unique(bindings)
    ensures Unique(Without(bindings, scope, capability))
    decreases |bindings|
  {
    if |bindings| > 0 {
      var n := |bindings| - 1;
      var before := Without(bindings[..n], scope, capability);
      WithoutKeepsUnique(bindings[..n], scope, capability);
      forall i | 0 <= i < |before| ensures !SameKey(bindings[n], before[i].scope, before[i].capability) {
        assert before[i] in before;
        WithoutIs(bindings[..n], scope, capability, before[i]);
        var k :| 0 <= k < n && bindings[..n][k] == before[i];
      }
    }
  }

  lemma BindingKeepsIntact(s: Stores, scope: Scope, capability: Capability, profile: Id)
    requires Intact(s) && profile in s.providers
    ensures Intact(Effect(s, SetBinding(scope, capability, profile)))
    ensures Intact(Effect(s, ClearBinding(scope, capability)))
  {
    var rest := Without(s.bindings, scope, capability);
    WithoutKeepsUnique(s.bindings, scope, capability);
    forall b | b in rest ensures b in s.bindings && !SameKey(b, scope, capability) {
      WithoutIs(s.bindings, scope, capability, b);
    }
    forall i | 0 <= i < |rest|
      ensures !SameKey(Binding(scope, capability, profile), rest[i].scope, rest[i].capability)
    {
      assert rest[i] in rest;
    }
    var c := Effect(s, ClearBinding(scope, capability));
    var d := Effect(s, SetBinding(scope, capability, profile));
    forall p ensures ProviderFits(c, p) && ProviderFits(d, p) {
      assert ProviderFits(s, p);
    }
  }

  lemma ClearingKeepsIntact(s: Stores, scope: Scope, capability: Capability)
    requires Intact(s)
    ensures Intact(Effect(s, ClearBinding(scope, capability)))
  {
    var rest := Without(s.bindings, scope, capability);
    WithoutKeepsUnique(s.bindings, scope, capability);
    forall b | b in rest ensures b in s.bindings {
      WithoutIs(s.bindings, scope, capability, b);
    }
    forall p ensures ProviderFits(Effect(s, ClearBinding(scope, capability)), p) {
      assert ProviderFits(s, p);
    }
  }

  lemma ExecKeepsIntact(s: Stores, env: Surroundings, c: Command)
    requires Intact(s)
    ensures Intact(Exec(s, env, c))
  {
    if AnswerTo(s, env, c) == Done {
      if c.SetBinding? {
        BindingKeepsIntact(s, c.scope, c.capability, c.profile);
      } else if c.ClearBinding? {
        ClearingKeepsIntact(s, c.scope, c.capability);
      } else {
        forall p ensures ProviderFits(Effect(s, c), p) {
          assert ProviderFits(s, p);
        }
      }
    }
  }

  lemma {:induction false} RunsKeepIntact(s: Stores, commands: seq<(Surroundings, Command)>)
    requires Intact(s)
    ensures Intact(Run(s, commands))
    decreases |commands|
  {
    if |commands| > 0 {
      ExecKeepsIntact(s, commands[0].0, commands[0].1);
      RunsKeepIntact(Exec(s, commands[0].0, commands[0].1), commands[1..]);
    }
  }

  /** Whatever the commands and however the surroundings change between them, every reference stays good. */
  lemma EveryRunIsIntact(commands: seq<(Surroundings, Command)>)
    ensures Intact(Run(EMPTY, commands))
  {
    RunsKeepIntact(EMPTY, commands);
  }

  /** A deletion of something no protected run uses is refused exactly when it would break a reference. */
  lemma DeletionsRefusedExactlyWhenTheyBreak(s: Stores, env: Surroundings, id: Id)
    requires Intact(s)
    ensures id in s.networks && id !in env.busyNetworks ==>
              (AnswerTo(s, env, DeleteNetwork(id)) == Conflict <==> !Intact(Effect(s, DeleteNetwork(id))))
    ensures id in s.providers && id !in env.busyProviders ==>
              (AnswerTo(s, env, DeleteProvider(id)) == Conflict <==> !Intact(Effect(s, DeleteProvider(id))))
  {
    var n, p := Effect(s, DeleteNetwork(id)), Effect(s, DeleteProvider(id));
    forall q ensures ProviderFits(s, q) && ProviderFits(p, q)
             && (ProviderFits(n, q) <==> !(q in s.providers && s.providers[q].network == Some(id))) {
      assert ProviderFits(s, q);
    }
    if b :| b in s.bindings && b.profile == id {
      assert b in p.bindings && b.profile !in p.providers;
    }
  }

  // ------------------------------------------------------- resolution

  lemma {:induction false} BoundAtIs(bindings: seq<Binding>, scope: Scope, capability: Capability)
    ensures BoundAt(bindings, scope, capability).None? <==> forall b :: b in bindings ==> !SameKey(b, scope, capability)
    ensures BoundAt(bindings, scope, capability).Some? ==>
              Binding(scope, capability, BoundAt(bindings, scope, capability).value) in bindings
  {
    if |bindings| > 0 && !SameKey(bindings[0], scope, capability) {
      BoundAtIs(bindings[1..], scope, capability);
    }
  }

  lemma {:induction false} BoundAtGrows(bindings: seq<Binding>, b: Binding, scope: Scope, capability: Capability)
    ensures BoundAt(bindings + [b], scope, capability) ==
            if BoundAt(bindings, scope, capability).Some? then BoundAt(bindings, scope, capability)
            else if SameKey(b, scope, capability) then Some(b.profile) else None
  {
    if |bindings| > 0 {
      assert (bindings + [b])[1..] == bindings[1..] + [b];
      BoundAtGrows(bindings[1..], b, scope, capability);
    }
  }

  lemma {:induction false} BoundAtShrinks(
      bindings: seq<Binding>, gone: Scope, key: Capability, scope: Scope, capability: Capability)
    ensures BoundAt(Without(bindings, gone, key), scope, capability) ==
            if scope == gone && capability == key then None else BoundAt(bindings, scope, capability)
    decreases |bindings|
  {
    if |bindings| > 0 {
      var n := |bindings| - 1;
      assert bindings == bindings[..n] + [bindings[n]];
      BoundAtShrinks(bindings[..n], gone, key, scope, capability);
      BoundAtGrows(bindings[..n], bindings[n], scope, capability);
      if !SameKey(bindings[n], gone, key) {
        BoundAtGrows(Without(bindings[..n], gone, key), bindings[n], scope, capability);
      } else {
        assert Without(bindings, gone, key) == Without(bindings[..n], gone, key);
      }
    }
  }

  /** Setting a binding puts the profile at its scope and capability and nowhere else; clearing takes just that away. */
  lemma BindingsAnswerByKey(s: Stores, scope: Scope, capability: Capability, profile: Id, at: Scope, key: Capability)
    ensures BoundAt(Effect(s, SetBinding(scope, capability, profile)).bindings, at, key) ==
            if at == scope && key == capability then Some(profile) else BoundAt(s.bindings, at, key)
    ensures BoundAt(Effect(s, ClearBinding(scope, capability)).bindings, at, key) ==
            if at == scope && key == capability then None else BoundAt(s.bindings, at, key)
  {
    BoundAtShrinks(s.bindings, scope, capability, at, key);
    BoundAtGrows(Without(s.bindings, scope, capability), Binding(scope, capability, profile), at, key);
  }

  /**
   A context is good exactly when what it names is live and fits together; a chapter always comes with its own book.
   */
  lemma ContextIsConsistent(env: Surroundings, book: Option<Id>, chapter: Option<Id>)
    ensures Validated(env, book, chapter).Known? <==>
              (book.Some? ==> book.value in env.books)
              && (chapter.Some? ==>
                    chapter.value in env.chapters && env.chapters[chapter.value] in env.books
                    && (book.Some? ==> book.value == env.chapters[chapter.value]))
    ensures Validated(env, book, chapter).Known? ==>
              Validated(env, book, chapter).chapter == chapter
              && Validated(env, book, chapter).book == if chapter.Some? then Some(env.chapters[chapter.value]) else book
  {
  }

  /** Chapter before book before global. */
  lemma NarrowestFirst(bindings: seq<Binding>, book: Id, chapter: Id, capability: Capability)
    ensures Resolve(bindings, Wanted(Some(book), Some(chapter)), capability).0 ==
            if BoundAt(bindings, Chapter(chapter), capability).Some?
              then BoundAt(bindings, Chapter(chapter), capability)
            else if BoundAt(bindings, Book(book), capability).Some? then BoundAt(bindings, Book(book), capability)
            else BoundAt(bindings, Global, capability)
  {
    var two, one := Wanted(Some(book), None), Wanted(None, None);
    assert Wanted(Some(book), Some(chapter))[1..] == two && two[1..] == one;
    assert Resolve(bindings, one, capability).0 == BoundAt(bindings, Global, capability);
    assert Resolve(bindings, two, capability) ==
           if BoundAt(bindings, Book(book), capability).Some?
             then (BoundAt(bindings, Book(book), capability), Some(Book(book)))
           else Resolve(bindings, one, capability);
  }

  /** The answer is the binding of the first scope that has one; no narrower scope has any. */
  lemma {:induction false} ResolvesToNarrowest(bindings: seq<Binding>, scopes: seq<Scope>, capability: Capability)
    ensures var r := Resolve(bindings, scopes, capability);
            (r == (None, None) <==> forall k :: 0 <= k < |scopes| ==> BoundAt(bindings, scopes[k], capability).None?)
            && (r != (None, None) ==>
                  exists k :: 0 <= k < |scopes| && r == (BoundAt(bindings, scopes[k], capability), Some(scopes[k]))
                    && r.0.Some?
                              && forall j :: 0 <= j < k ==> BoundAt(bindings, scopes[j], capability).None?)
  {
    if |scopes| > 0 && BoundAt(bindings, scopes[0], capability).None? {
      ResolvesToNarrowest(bindings, scopes[1..], capability);
      assert forall k :: 0 < k < |scopes| ==> scopes[k] == scopes[1..][k - 1];
      if Resolve(bindings, scopes, capability) != (None, None) {
        var k :| 0 <= k < |scopes| - 1
                 && Resolve(bindings, scopes, capability) ==
                    (BoundAt(bindings, scopes[1..][k], capability), Some(scopes[1..][k]))
                 && forall j :: 0 <= j < k ==> BoundAt(bindings, scopes[1..][j], capability).None?;
        assert scopes[k + 1] == scopes[1..][k];
      }
    }
  }

  lemma {:induction false} ResolveIgnores(a: seq<Binding>, b: seq<Binding>, scopes: seq<Scope>, capability: Capability)
    requires forall scope :: scope in scopes ==> BoundAt(a, scope, capability) == BoundAt(b, scope, capability)
    ensures Resolve(a, scopes, capability) == Resolve(b, scopes, capability)
  {
    if |scopes| > 0 {
      assert scopes[0] in scopes;
      ResolveIgnores(a, b, scopes[1..], capability);
    }
  }

  /** With its own binding cleared, the narrowest scope gets what the next wider scopes resolve to. */
  lemma ClearedFallsThrough(s: Stores, scopes: seq<Scope>, capability: Capability)
    requires |scopes| > 0 && scopes[0] !in scopes[1..]
    ensures Resolve(Effect(s, ClearBinding(scopes[0], capability)).bindings, scopes, capability) ==
            Resolve(s.bindings, scopes[1..], capability)
  {
    var cleared := Effect(s, ClearBinding(scopes[0], capability)).bindings;
    BoundAtShrinks(s.bindings, scopes[0], capability, scopes[0], capability);
    forall at | at in scopes[1..] ensures BoundAt(cleared, at, capability) == BoundAt(s.bindings, at, capability) {
      BoundAtShrinks(s.bindings, scopes[0], capability, at, capability);
    }
    ResolveIgnores(cleared, s.bindings, scopes[1..], capability);
  }

  /** A cleared chapter gets what its book gets, and a cleared book what is global. */
  lemma ClearingRestoresTheWiderScope(s: Stores, book: Id, chapter: Id, capability: Capability)
    ensures var cleared := Effect(s, ClearBinding(Chapter(chapter), capability)).bindings;
            Resolve(cleared, Wanted(Some(book), Some(chapter)), capability) ==
            Resolve(s.bindings, Wanted(Some(book), None), capability)
    ensures var cleared := Effect(s, ClearBinding(Book(book), capability)).bindings;
            Resolve(cleared, Wanted(Some(book), None), capability) ==
            Resolve(s.bindings, Wanted(None, None), capability)
  {
    assert Wanted(Some(book), Some(chapter))[1..] == Wanted(Some(book), None);
    assert Wanted(Some(book), None)[1..] == Wanted(None, None);
    ClearedFallsThrough(s, Wanted(Some(book), Some(chapter)), capability);
    ClearedFallsThrough(s, Wanted(Some(book), None), capability);
  }

  /** Setting a binding where there was none and clearing it again leaves every resolution as it was. */
  lemma ClearUndoesSet(
      s: Stores, scope: Scope, capability: Capability, profile: Id, scopes: seq<Scope>, key: Capability)
    requires BoundAt(s.bindings, scope, capability).None?
    ensures var s' := Effect(Effect(s, SetBinding(scope, capability, profile)), ClearBinding(scope, capability));
            Resolve(s'.bindings, scopes, key) == Resolve(s.bindings, scopes, key)
  {
    var t := Effect(s, SetBinding(scope, capability, profile));
    forall at | at in scopes
      ensures BoundAt(Effect(t, ClearBinding(scope, capability)).bindings, at, key) == BoundAt(s.bindings, at, key)
    {
      BindingsAnswerByKey(s, scope, capability, profile, at, key);
      BindingsAnswerByKey(t, scope, capability, profile, at, key);
    }
    ResolveIgnores(Effect(t, ClearBinding(scope, capability)).bindings, s.bindings, scopes, key);
  }

  /** What the resolve command answers: the narrowest binding, if its profile can serve; it never falls back. */
  function ResolveBinding(
    s: Stores, env: Surroundings, capability: Capability, book: Option<Id>, chapter: Option<Id>): Answer
  {
    var context := Validated(env, book, chapter);
    if context.Refused? then context.answer
    else if !Unique(s.bindings) then Unavailable
    else
      var r := Resolve(s.bindings, Wanted(context.book, context.chapter), capability);
      if r.0.Some? && Usable(s, r.0.value, capability) != Done then Usable(s, r.0.value, capability)
        else Bound(r.0, r.1)
  }

  /**
   In every run resolution fails in a good context only where the narrowest bound profile was later disabled or lost
   the capability.
   */
  lemma ResolutionFailsExactlyWhen(
    s: Stores, commands: seq<(Surroundings, Command)>, env: Surroundings,
    capability: Capability, book: Option<Id>, chapter: Option<Id>)
    requires s == Run(EMPTY, commands) && Validated(env, book, chapter).Known?
    ensures var context := Validated(env, book, chapter);
            var r := Resolve(s.bindings, Wanted(context.book, context.chapter), capability);
            (r.0.Some? ==> r.0.value in s.providers)
            && (if r.0.Some? && !(s.providers[r.0.value].enabled && capability in s.providers[r.0.value].capabilities)
                then ResolveBinding(s, env, capability, book, chapter) == Conflict
                else ResolveBinding(s, env, capability, book, chapter) == Bound(r.0, r.1))
  {
    EveryRunIsIntact(commands);
    var context := Validated(env, book, chapter);
    var scopes := Wanted(context.book, context.chapter);
    var r := Resolve(s.bindings, scopes, capability);
    ResolvesToNarrowest(s.bindings, scopes, capability);
    if r.0.Some? {
      BoundAtIs(s.bindings, r.1.value, capability);
      assert ProviderFits(s, r.0.value);
    }
  }

  // ------------------------------------------------------- what an accepted command leaves

  /** Everywhere else the two tables agree. */
  ghost predicate SameBut<T>(a: map<Id, T>, b: map<Id, T>, id: Id) {
    forall other :: other != id ==>
      (other in a <==> other in b) && (other in a ==> b[other] == a[other])
  }

  /** An update takes every given value except the kind, and leaves all other profiles and stores alone. */
  lemma UpdateLeaves(s: Stores, env: Surroundings, id: Id, provider: Provider)
    requires AnswerTo(s, env, UpdateProvider(id, provider)) == Done
    ensures var s' := Exec(s, env, UpdateProvider(id, provider));
            && id in s.providers && id in s'.providers && SameBut(s.providers, s'.providers, id)
            && s'.networks == s.networks && s'.bindings == s.bindings && s'.standard == s.standard
            && var p := s'.providers[id];
            && p.name == provider.name && p.capabilities == provider.capabilities && p.endpoint == provider.endpoint
            && p.model == provider.model && p.network == provider.network && p.enabled == provider.enabled
            && p.kind == s.providers[id].kind
  {
  }

  /** An update that disables a profile makes every resolution through it a conflict, and touches no other. */
  lemma DisablingConflicts(
    s: Stores, env: Surroundings, id: Id, provider: Provider, capability: Capability,
    book: Option<Id>, chapter: Option<Id>)
    requires Intact(s) && Validated(env, book, chapter).Known?
    requires AnswerTo(s, env, UpdateProvider(id, provider)) == Done && !provider.enabled
    ensures var context := Validated(env, book, chapter);
            var through := Resolve(s.bindings, Wanted(context.book, context.chapter), capability).0 == Some(id);
            var after := ResolveBinding(Exec(s, env, UpdateProvider(id, provider)), env, capability, book, chapter);
            if through then after == Conflict else after == ResolveBinding(s, env, capability, book, chapter)
  {
  }

  /** What every other accepted command leaves, table by table. */
  lemma CommandsLeave(s: Stores, env: Surroundings, c: Command)
    requires AnswerTo(s, env, c) == Done
    ensures var s' := Exec(s, env, c);
            && (!(c.CreateNetwork? || c.UpdateNetwork? || c.DeleteNetwork?) ==> s'.networks == s.networks)
            && (!(c.CreateProvider? || c.UpdateProvider? || c.DeleteProvider?) ==> s'.providers == s.providers)
            && (!(c.SetDefault? || c.ClearDefault?) ==> s'.standard == s.standard)
            && (!(c.SetBinding? || c.ClearBinding?) ==> s'.bindings == s.bindings)
            && (c.CreateNetwork? || c.UpdateNetwork? ==>
                  c.id in s'.networks && s'.networks[c.id] == c.network && SameBut(s.networks, s'.networks, c.id))
            && (c.DeleteNetwork? ==> c.id !in s'.networks && SameBut(s.networks, s'.networks, c.id))
            && (c.CreateProvider? ==>
                  c.id in s'.providers && s'.providers[c.id] == c.provider && SameBut(s.providers, s'.providers, c.id))
            && (c.DeleteProvider? ==> c.id !in s'.providers && SameBut(s.providers, s'.providers, c.id))
            && (c.SetDefault? ==> s'.standard == Some(c.id)) && (c.ClearDefault? ==> s'.standard == None)
  {
  }

  /** Which profiles, networks and defaults are accepted, and for what the others are refused. */
  lemma AcceptedExactlyWhen(s: Stores, env: Surroundings, c: Command)
    requires Intact(s)
    ensures var answer := AnswerTo(s, env, c);
            && (c.CreateNetwork? ==> answer == if c.id in s.networks then Unavailable else Done)
            && (c.UpdateNetwork? || c.SetDefault? ==> answer == if c.id in s.networks then Done else NotFound)
            && (c.DeleteNetwork? || c.DeleteProvider? ==>
                  (answer == NotFound <==>
                     if c.DeleteNetwork? then c.id !in s.networks else c.id !in s.providers)
                  && (answer == NotFound || answer == Conflict || answer == Done))
            && (c.CreateProvider? || c.UpdateProvider? ==>
                  && (answer == Done <==>
                        && (c.CreateProvider? <==> c.id !in s.providers)
                        && c.provider.capabilities != {}
                        && (c.provider.network.Some? ==> c.provider.network.value in s.networks))
                  && (answer == Invalid <==>
                        c.provider.capabilities == {} && (c.UpdateProvider? ==> c.id in s.providers))
                  && (answer == Unavailable ==> c.CreateProvider? && c.id in s.providers)
                  && (answer == NotFound <==>
                        || (c.UpdateProvider? && c.id !in s.providers)
                        || (c.provider.capabilities != {} && c.provider.network.Some?
                            && c.provider.network.value !in s.networks)))
            && (c.SetBinding? || c.ClearBinding? ==>
                  && (ScopeContext(env, c.scope).Refused? ==> answer == ScopeContext(env, c.scope).answer)
                  && (c.SetBinding? && ScopeContext(env, c.scope).Known? ==>
                        && (answer == NotFound <==> c.profile !in s.providers)
                        && (answer == Conflict <==>
                              c.profile in s.providers
                              && !(s.providers[c.profile].enabled
                                   && c.capability in s.providers[c.profile].capabilities)))
                  && (answer == Done <==>
                        && ScopeContext(env, c.scope).Known?
                        && (c.SetBinding? ==>
                              && c.profile in s.providers && s.providers[c.profile].enabled
                              && c.capability in s.providers[c.profile].capabilities)))
  {
    if c.SetBinding? {
      assert ProviderFits(s, c.profile);
    }
  }

  /** What is named and not live is not found; a chapter of another book is a conflict. */
  lemma ContextAnswers(env: Surroundings, book: Option<Id>, chapter: Option<Id>)
    ensures var context := Validated(env, book, chapter);
            context.Refused? ==>
              && (context.answer == NotFound || context.answer == Conflict)
              && (context.answer == Conflict <==>
                    book.Some? && book.value in env.books && chapter.Some? && chapter.value in env.chapters
                    && env.chapters[chapter.value] != book.value)
  {
  }

  // ------------------------------------------------------- bindings to a scope that is gone

  lemma {:induction false} UniqueMeansOne(bindings: seq<Binding>, a: Binding, b: Binding)
    requires Unique(bindings) && a in bindings && b in bindings && SameKey(b, a.scope, a.capability)
    ensures a == b
  {
    var i :| 0 <= i < |bindings| && bindings[i] == a;
    var j :| 0 <= j < |bindings| && bindings[j] == b;
    assert SameKey(bindings[j], bindings[i].scope, bindings[i].capability);
    assert SameKey(bindings[i], bindings[j].scope, bindings[j].capability);
  }

  /** A binding can be cleared exactly when its scope is live. */
  lemma ClearedExactlyWhenLive(s: Stores, env: Surroundings, b: Binding)
    requires Intact(s) && b in s.bindings
    ensures b !in Exec(s, env, ClearBinding(b.scope, b.capability)).bindings <==> ScopeContext(env, b.scope).Known?
  {
    WithoutIs(s.bindings, b.scope, b.capability, b);
  }

  /** A binding can be replaced by one of another profile exactly when its scope is live and the profile can serve. */
  lemma ReplacedExactlyWhenLive(s: Stores, env: Surroundings, b: Binding, profile: Id)
    requires Intact(s) && b in s.bindings && profile != b.profile
    ensures b !in Exec(s, env, SetBinding(b.scope, b.capability, profile)).bindings <==>
            ScopeContext(env, b.scope).Known? && Usable(s, profile, b.capability) == Done
    ensures b !in Exec(s, env, SetBinding(b.scope, b.capability, profile)).bindings <==>
            Binding(b.scope, b.capability, profile) in Exec(s, env, SetBinding(b.scope, b.capability, profile)).bindings
  {
    var other := Binding(b.scope, b.capability, profile);
    WithoutIs(s.bindings, b.scope, b.capability, b);
    if other in s.bindings {
      UniqueMeansOne(s.bindings, b, other);
    }
  }

  /** While its scope is gone, be it the book, the chapter or the chapter's book, a binding and its profile stay. */
  lemma {:induction false} BindingOutlivesItsScope(s: Stores, commands: seq<(Surroundings, Command)>, b: Binding)
    requires Intact(s) && b in s.bindings
    requires forall k :: 0 <= k < |commands| ==> ScopeContext(commands[k].0, b.scope).Refused?
    ensures b in Run(s, commands).bindings && b.profile in Run(s, commands).providers
    decreases |commands|
  {
    if |commands| > 0 {
      var env, c := commands[0].0, commands[0].1;
      assert ScopeContext(env, b.scope).Refused?;
      ExecKeepsIntact(s, env, c);
      if c.SetBinding? || c.ClearBinding? {
        WithoutIs(s.bindings, c.scope, c.capability, b);
      }
      assert forall k :: 0 <= k < |commands| - 1 ==> commands[1..][k] == commands[k + 1];
      BindingOutlivesItsScope(Exec(s, env, c), commands[1..], b);
    }
  }

  /** A scope is gone exactly when its book or chapter is not live, or the book of its chapter is not. */
  lemma GoneScopes(env: Surroundings, book: Id, chapter: Id)
    ensures ScopeContext(env, Global).Known?
    ensures ScopeContext(env, Book(book)).Refused? <==> book !in env.books
    ensures ScopeContext(env, Chapter(chapter)).Refused? <==>
            chapter !in env.chapters || env.chapters[chapter] !in env.books
  {
  }

  /** A provider is created and bound while the scope is live. */
  function Bindings(env: Surroundings, b: Binding, p: Provider): seq<(Surroundings, Command)> {
    [(env, CreateProvider(b.profile, p)), (env, SetBinding(b.scope, b.capability, b.profile))]
  }

  /**
   From the empty stores every binding of a live scope is reached; once its scope is gone no commands whatever take
   it away, and none deletes its profile.
   */
  lemma {:induction false} StaleBindingsHappen(
    live: Surroundings, b: Binding, p: Provider, commands: seq<(Surroundings, Command)>)
    requires ScopeContext(live, b.scope).Known? && p.network.None? && p.enabled && b.capability in p.capabilities
    requires forall k :: 0 <= k < |commands| ==> ScopeContext(commands[k].0, b.scope).Refused?
    ensures Run(EMPTY, Bindings(live, b, p)).bindings == [b]
    ensures b in Run(Run(EMPTY, Bindings(live, b, p)), commands).bindings
    ensures b.profile in Run(Run(EMPTY, Bindings(live, b, p)), commands).providers
  {
    var first := Exec(EMPTY, live, CreateProvider(b.profile, p));
    assert first == EMPTY.(providers := map[b.profile := p]);
    var second := Exec(first, live, SetBinding(b.scope, b.capability, b.profile));
    assert second.bindings == [b];
    assert Run(EMPTY, Bindings(live, b, p)) == Run(first, Bindings(live, b, p)[1..]);
    assert Run(first, Bindings(live, b, p)[1..]) == Run(second, Bindings(live, b, p)[1..][1..]) == second;
    EveryRunIsIntact(Bindings(live, b, p));
    BindingOutlivesItsScope(second, commands, b);
  }

  // ------------------------------------------------------- the stores, in place

  class SettingsStores {
    var networks: map<Id, Network>
    var providers: map<Id, Provider>
    var bindings: seq<Binding>
    var standard: Option<Id>

    constructor ()
      ensures S() == EMPTY
    {
      networks, providers, bindings, standard := map[], map[], [], None;
    }

    function S(): Stores
      reads this
    {
      Stores(networks, providers, bindings, standard)
    }

    method NetworkProfilesDelete(env: Surroundings, id: Id) returns (answer: Answer)
      modifies this`networks
      ensures answer == AnswerTo(old(S()), env, DeleteNetwork(id)) && S() == Exec(old(S()), env, DeleteNetwork(id))
    {
      if id !in networks {
        return NotFound;
      }
      var used := exists p :: p in providers && providers[p].network == Some(id);
      if standard == Some(id) || used || id in env.busyNetworks {
        return Conflict;
      }
      networks := networks - {id};
      return Done;
    }

    method NetworkDefaultSet(env: Surroundings, id: Id) returns (answer: Answer)
      modifies this`standard
      ensures answer == AnswerTo(old(S()), env, SetDefault(id)) && S() == Exec(old(S()), env, SetDefault(id))
    {
      if id !in networks {
        return NotFound;
      }
      standard := Some(id);
      return Done;
    }

    method ProfilesUpdate(env: Surroundings, id: Id, provider: Provider) returns (answer: Answer)
      modifies this`providers
      ensures answer == AnswerTo(old(S()), env, UpdateProvider(id, provider))
      ensures S() == Exec(old(S()), env, UpdateProvider(id, provider))
    {
      if id !in providers {
        return NotFound;
      }
      if provider.capabilities == {} {
        return Invalid;
      }
      if provider.network.Some? && provider.network.value !in networks {
        return NotFound;
      }
      providers := providers[id := provider.(kind := providers[id].kind)];
      return Done;
    }

    method ProfilesDelete(env: Surroundings, id: Id) returns (answer: Answer)
      modifies this`providers
      ensures answer == AnswerTo(old(S()), env, DeleteProvider(id)) && S() == Exec(old(S()), env, DeleteProvider(id))
    {
      if id !in providers {
        return NotFound;
      }
      if !Unique(bindings) {
        return Unavailable;
      }
      var bound := false;
      var i := 0;
      while i < |bindings|
        invariant 0 <= i <= |bindings| && (bound <==> exists b :: b in bindings[..i] && b.profile == id)
      {
        assert bindings[..i + 1] == bindings[..i] + [bindings[i]];
        bound := bound || bindings[i].profile == id;
        i := i + 1;
      }
      assert bindings[..i] == bindings;
      if bound || id in env.busyProviders {
        return Conflict;
      }
      providers := providers - {id};
      return Done;
    }

    /** The rows of other scopes and capabilities, in their order. */
    method Others(scope: Scope, capability: Capability) returns (rows: seq<Binding>)
      ensures rows == Without(bindings, scope, capability)
    {
      rows := [];
      var i := 0;
      while i < |bindings|
        invariant 0 <= i <= |bindings| && rows == Without(bindings[..i], scope, capability)
      {
        assert bindings[..i + 1][..i] == bindings[..i];
        if !SameKey(bindings[i], scope, capability) { rows := rows + [bindings[i]]; }
        i := i + 1;
      }
      assert bindings[..i] == bindings;
    }

    method BindingsSet(env: Surroundings, scope: Scope, capability: Capability, profile: Id) returns (answer: Answer)
      modifies this`bindings
      ensures answer == AnswerTo(old(S()), env, SetBinding(scope, capability, profile))
      ensures S() == Exec(old(S()), env, SetBinding(scope, capability, profile))
    {
      if ScopeContext(env, scope).Refused? {
        return ScopeContext(env, scope).answer;
      }
      answer := Usable(S(), profile, capability);
      if answer != Done {
        return;
      }
      if !Unique(bindings) {
        return Unavailable;
      }
      var rows := Others(scope, capability);
      bindings := rows + [Binding(scope, capability, profile)];
    }

    method BindingsClear(env: Surroundings, scope: Scope, capability: Capability) returns (answer: Answer)
      modifies this`bindings
      ensures answer == AnswerTo(old(S()), env, ClearBinding(scope, capability))
      ensures S() == Exec(old(S()), env, ClearBinding(scope, capability))
    {
      if ScopeContext(env, scope).Refused? {
        return ScopeContext(env, scope).answer;
      }
      if !Unique(bindings) {
        return Unavailable;
      }
      bindings := Others(scope, capability);
      return Done;
    }
  }
}
