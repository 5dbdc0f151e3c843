/**
 * `find_transmissora` and `find_empresa_pagadora`: first-match linear searches of the
 * reference data for a transmission company (transmissora) and a paying company
 * (empresa pagadora), by CNPJ, by name, or (transmissoras only) by ONS code.
 *
 * Each search goes through the records in order and stops at the first record that
 * either satisfies one of the supplied criteria or makes Python raise an exception.
 */
module CompanyLookup {
  import opened Wrappers
  import opened Text
  import opened Json
  import opened CnpjText

  /** What one record does to the search: nothing, stop with it, or raise. */
  datatype Verdict = Miss | Hit | Fault

  /** The outcome of a search: `None`, a record, or an exception that escapes. */
  datatype Lookup<T> = NotFound | Found(value: T) | Raised

  /** `items[i]` is the first record that is not a `Miss`. */
  ghost predicate FirstDecisive<T>(items: seq<T>, verdict: T -> Verdict, i: int) {
    0 <= i < |items| && verdict(items[i]) != Miss &&
    forall j :: 0 <= j < i ==> verdict(items[j]) == Miss
  }

  /** A `for` loop over `items` that returns on the first hit and lets exceptions escape. */
  function FirstMatch<T>(items: seq<T>, verdict: T -> Verdict): (r: Lookup<T>)
    ensures r.NotFound? <==> forall i :: 0 <= i < |items| ==> verdict(items[i]) == Miss
    ensures r.Found? ==> exists i :: FirstDecisive(items, verdict, i) && items[i] == r.value && verdict(items[i]) == Hit
    ensures r.Raised? ==> exists i :: FirstDecisive(items, verdict, i) && verdict(items[i]) == Fault
  {
    if items == [] then NotFound
    else match verdict(items[0])
      case Hit => assert FirstDecisive(items, verdict, 0); Found(items[0])
      case Fault => assert FirstDecisive(items, verdict, 0); Raised
      case Miss =>
        var r := FirstMatch(items[1..], verdict);
        assert forall i :: 0 <= i < |items[1..]| ==> items[1..][i] == items[i + 1];
        assert r.Found? || r.Raised? ==>
          forall i :: FirstDecisive(items[1..], verdict, i) ==> FirstDecisive(items, verdict, i + 1);
        r
  }

  /** The first record that is not a miss decides the outcome of the scan. */
  lemma {:induction false} FirstMatchAt<T>(items: seq<T>, verdict: T -> Verdict, i: nat)
    requires FirstDecisive(items, verdict, i)
    ensures FirstMatch(items, verdict) == if verdict(items[i]) == Hit then Found(items[i]) else Raised
  {
    if i > 0 {
      assert verdict(items[0]) == Miss;
      assert FirstDecisive(items[1..], verdict, i - 1) by {
        assert forall j :: 0 <= j < i - 1 ==> items[1..][j] == items[j + 1];
      }
      FirstMatchAt(items[1..], verdict, i - 1);
    }
  }

  /** Python truthiness of an optional string argument: present and non-empty. */
  predicate Truthy(s: Option<string>) {
    s.Some? && s.value != ""
  }

  /** `cnpj_busca = normalize_cnpj(cnpj) if cnpj else None` */
  function SearchKey(cnpj: Option<string>): (key: Option<string>)
    ensures key.Some? <==> Truthy(cnpj)
    ensures key.Some? ==> key.value == Digits(cnpj.value)
  {
    if Truthy(cnpj) then Some(NormalizeCnpj(cnpj)) else None
  }

  /** `cnpj_busca and normalize_cnpj(record.get(field)) == cnpj_busca` */
  predicate CnpjCriterion(key: Option<string>, field: Member<string>) {
    Truthy(key) && NormalizeCnpj(field.Get()) == key.value
  }

  /**
   * `nome and record.get('nome', '').upper() == nome.upper()`: a `null` name in the
   * record has no `upper`, so Python raises.
   */
  function NameVerdict(nome: Option<string>, field: Member<string>): Verdict {
    if !Truthy(nome) then Miss
    else match field.GetOr("")
      case None => Fault
      case Some(v) => if Upper(v) == Upper(nome.value) then Hit else Miss
  }

  /** The name criterion holds: a name is asked for and the record's name equals it ignoring case. */
  predicate NameCriterion(nome: Option<string>, field: Member<string>) {
    Truthy(nome) && field.Present? && Upper(field.value) == Upper(nome.value)
  }

  /** The name comparison raises: a name is asked for and the record's name is `null`. */
  predicate NameFault(nome: Option<string>, field: Member<string>) {
    Truthy(nome) && field.Null?
  }

  lemma NameVerdictMeaning(nome: Option<string>, field: Member<string>)
    ensures NameVerdict(nome, field) == Hit <==> NameCriterion(nome, field)
    ensures NameVerdict(nome, field) == Fault <==> NameFault(nome, field)
  {
    if Truthy(nome) && field.Missing? {
      assert |Upper(nome.value)| == |nome.value| > 0 == |Upper("")|;
    }
  }

  // ---------------------------------------------------------------------------
  // Transmissoras
  // ---------------------------------------------------------------------------

  /** One entry of `items`: the keys the search and the answer read. */
  datatype Transmissora = Transmissora(
    nome: Member<string>,
    codigoFornecedor: Member<string>,
    codigoOns: Member<string>,
    idTransmissora: Member<string>)

  /** One element of `results`. */
  datatype ResultPage = ResultPage(items: Member<seq<Transmissora>>)

  /** The transmissoras file: an object whose `results` holds pages of items. */
  datatype TransmissorasData = TransmissorasData(results: Member<seq<ResultPage>>)

  /** The arguments `cnpj`, `nome` and `codigo_ons`; `None` when not passed. */
  datatype TransmissoraQuery = TransmissoraQuery(cnpj: Option<string>, nome: Option<string>, codigoOns: Option<string>)

  /** The query `find_transmissora(cnpj=c)`. */
  function CnpjQuery(c: string): TransmissoraQuery {
    TransmissoraQuery(Some(c), None, None)
  }

  /** `codigo_ons and record.get('codigo_ons') == str(codigo_ons)` */
  predicate OnsCriterion(codigoOns: Option<string>, field: Member<string>) {
    Truthy(codigoOns) && field == Present(codigoOns.value)
  }

  /** The three tests of one loop iteration, in their order: CNPJ, then name, then ONS code. */
  function TransmissoraVerdict(q: TransmissoraQuery, t: Transmissora): Verdict {
    if CnpjCriterion(SearchKey(q.cnpj), t.codigoFornecedor) then Hit
    else match NameVerdict(q.nome, t.nome)
      case Hit => Hit
      case Fault => Fault
      case Miss => if OnsCriterion(q.codigoOns, t.codigoOns) then Hit else Miss
  }

  function TransmissoraVerdictOf(q: TransmissoraQuery): Transmissora -> Verdict {
    t => TransmissoraVerdict(q, t)
  }

  /**
   * A record is taken when any supplied criterion holds, unless the name comparison
   * raises first; it raises only when the CNPJ test has not already succeeded.
   */
  lemma TransmissoraVerdictMeaning(q: TransmissoraQuery, t: Transmissora)
    ensures TransmissoraVerdict(q, t) == Hit <==>
      CnpjCriterion(SearchKey(q.cnpj), t.codigoFornecedor) || NameCriterion(q.nome, t.nome) ||
      (OnsCriterion(q.codigoOns, t.codigoOns) && !NameFault(q.nome, t.nome))
    ensures TransmissoraVerdict(q, t) == Fault <==>
      !CnpjCriterion(SearchKey(q.cnpj), t.codigoFornecedor) && NameFault(q.nome, t.nome)
  {
    NameVerdictMeaning(q.nome, t.nome);
  }

  /**
   * The data shape makes `transmissoras_data.get('results', [{}])[0].get('items', [])`
   * raise: `results` is `null` or empty, or the first page's `items` is `null`.
   */
  predicate Broken(data: TransmissorasData) {
    match data.results
    case Missing => false
    case Null => true
    case Present(pages) => pages == [] || pages[0].items.Null?
  }

  /** The items the loop goes through when the data is not broken: only the first page's. */
  function SearchedItems(data: TransmissorasData): seq<Transmissora> {
    match data.results
    case Present(pages) =>
      if pages != [] && pages[0].items.Present? then pages[0].items.value else []
    case _ => []
  }

  /** `find_transmissora(cnpj, nome, codigo_ons)` over the loaded data (`None` when loading failed). */
  function FindTransmissora(data: Option<TransmissorasData>, q: TransmissoraQuery): (r: Lookup<Transmissora>)
    ensures data.None? ==> r.NotFound?
    ensures data.Some? && Broken(data.value) ==> r.Raised?
  {
    if data.None? then NotFound
    else match data.value.results
      // the default `[{}]`: its only page has no `items`, so the loop runs zero times
      case Missing => NotFound
      // `None[0]`
      case Null => Raised
      case Present(pages) =>
        // `[][0]`
        if pages == [] then Raised
        else match pages[0].items
          case Missing => NotFound
          // iterating over `None`
          case Null => Raised
          case Present(items) => FirstMatch(items, TransmissoraVerdictOf(q))
  }

  /**
   * When the data is loaded and its shape does not raise, the search returns the first
   * item of the first page that matches, or raises at the first item whose name
   * comparison raises, or returns `None` when every item misses.
   */
  lemma FindTransmissoraScans(data: TransmissorasData, q: TransmissoraQuery)
    requires !Broken(data)
    ensures var r := FindTransmissora(Some(data), q);
      var items := SearchedItems(data);
      && (r.NotFound? <==> forall i :: 0 <= i < |items| ==> TransmissoraVerdict(q, items[i]) == Miss)
      && (r.Found? ==>
            exists i :: FirstDecisive(items, TransmissoraVerdictOf(q), i) &&
              items[i] == r.value && TransmissoraVerdict(q, r.value) == Hit)
      && (r.Raised? ==>
            exists i :: FirstDecisive(items, TransmissoraVerdictOf(q), i) &&
              TransmissoraVerdict(q, items[i]) == Fault)
  {
    FindTransmissoraSearchesItems(data, q);
    var items := SearchedItems(data);
    assert forall i :: 0 <= i < |items| ==> TransmissoraVerdictOf(q)(items[i]) == TransmissoraVerdict(q, items[i]);
  }

  /** A dataset whose shape does not raise is searched by the loop over its first page's items. */
  lemma FindTransmissoraSearchesItems(data: TransmissorasData, q: TransmissoraQuery)
    requires !Broken(data)
    ensures FindTransmissora(Some(data), q) == FirstMatch(SearchedItems(data), TransmissoraVerdictOf(q))
  {
    if !(data.results.Present? && data.results.value[0].items.Present?) {
      assert SearchedItems(data) == [];
      assert FirstMatch([], TransmissoraVerdictOf(q)) == NotFound;
    }
  }

  /** With no criterion at all nothing matches: the result is `None` unless the data shape raises. */
  lemma NoCriterionFindsNothing(data: Option<TransmissorasData>, q: TransmissoraQuery)
    requires !Truthy(q.cnpj) && !Truthy(q.nome) && !Truthy(q.codigoOns)
    ensures FindTransmissora(data, q) == if data.Some? && Broken(data.value) then Raised else NotFound
  {
    if data.Some? && !Broken(data.value) {
      FindTransmissoraScans(data.value, q);
      forall t | t in SearchedItems(data.value)
        ensures TransmissoraVerdict(q, t) == Miss
      {
      }
    }
  }

  /** A CNPJ without any digit (such as "./-") searches for nothing. */
  lemma EmptyCnpjKeyFindsNothing(data: Option<TransmissorasData>, c: string)
    requires Digits(c) == []
    ensures FindTransmissora(data, CnpjQuery(c)) == if data.Some? && Broken(data.value) then Raised else NotFound
  {
    if data.Some? && !Broken(data.value) {
      FindTransmissoraScans(data.value, CnpjQuery(c));
      forall t | t in SearchedItems(data.value)
        ensures TransmissoraVerdict(CnpjQuery(c), t) == Miss
      {
      }
    }
  }

  /** A search by CNPJ alone raises exactly when the data shape does. */
  lemma CnpjQueryRaisesIffBroken(data: Option<TransmissorasData>, c: string)
    ensures FindTransmissora(data, CnpjQuery(c)).Raised? <==> data.Some? && Broken(data.value)
  {
    var r := FindTransmissora(data, CnpjQuery(c));
    if r.Raised? && data.Some? && !Broken(data.value) {
      FindTransmissoraScans(data.value, CnpjQuery(c));
      var items := SearchedItems(data.value);
      var i :| FirstDecisive(items, TransmissoraVerdictOf(CnpjQuery(c)), i) &&
        TransmissoraVerdict(CnpjQuery(c), items[i]) == Fault;
      TransmissoraVerdictMeaning(CnpjQuery(c), items[i]);
    }
  }

  /**
   * A record found by CNPJ has a `codigo_fornecedor` holding those digits, so it is
   * a non-empty dict and Python treats it as true.
   */
  lemma CnpjHitHasSupplierCode(data: Option<TransmissorasData>, c: string)
    requires Digits(c) != [] && FindTransmissora(data, CnpjQuery(c)).Found?
    ensures FindTransmissora(data, CnpjQuery(c)).value.codigoFornecedor.Present?
    ensures Digits(FindTransmissora(data, CnpjQuery(c)).value.codigoFornecedor.value) == Digits(c)
  {
    FindTransmissoraScans(data.value, CnpjQuery(c));
    TransmissoraVerdictMeaning(CnpjQuery(c), FindTransmissora(data, CnpjQuery(c)).value);
  }

  /** Only the first page of `results` is searched: later pages never change the outcome. */
  lemma OnlyFirstPageSearched(page: ResultPage, more: seq<ResultPage>, q: TransmissoraQuery)
    ensures FindTransmissora(Some(TransmissorasData(Present([page] + more))), q)
         == FindTransmissora(Some(TransmissorasData(Present([page]))), q)
  {
    assert ([page] + more)[0] == page;
  }

  /** The search returns the first record that matches, whatever later records also match. */
  lemma FirstHitReturned(data: TransmissorasData, q: TransmissoraQuery, i: nat)
    requires !Broken(data) && FirstDecisive(SearchedItems(data), TransmissoraVerdictOf(q), i)
    requires TransmissoraVerdict(q, SearchedItems(data)[i]) == Hit
    ensures FindTransmissora(Some(data), q) == Found(SearchedItems(data)[i])
  {
    FirstMatchAt(SearchedItems(data), TransmissoraVerdictOf(q), i);
  }

  // ---------------------------------------------------------------------------
  // Empresas pagadoras
  // ---------------------------------------------------------------------------

  /** One company of the empresas file. */
  datatype Empresa = Empresa(nome: Member<string>, cnpj: Member<string>, codigoNeoEnergia: Member<string>)

  /**
   * One category ("RE", "AE", "DE", ...) and the value stored under it: its
   * companies by code, in file order, or `None` when the value is JSON `null`.
   * A company's record is `None` when it is JSON `null`.
   */
  datatype Category = Category(name: string, companies: Option<seq<(string, Option<Empresa>)>>)

  /** The dictionary built for a company that is found. */
  datatype EmpresaPagadora = EmpresaPagadora(
    codigo: string,
    nome: Option<string>,
    cnpj: Option<string>,
    codigoNeoEnergia: Option<string>,
    categoria: string)

  /** The arguments `cnpj` and `nome`; `None` when not passed. */
  datatype EmpresaQuery = EmpresaQuery(cnpj: Option<string>, nome: Option<string>)

  /** The two tests of one inner-loop iteration on a record that is an object: CNPJ, then name. */
  function EmpresaVerdict(q: EmpresaQuery, e: Empresa): Verdict {
    if CnpjCriterion(SearchKey(q.cnpj), e.cnpj) then Hit else NameVerdict(q.nome, e.nome)
  }

  /**
   * The two tests on a record that may be `null`: `None` has no `get`, so a `null`
   * record raises as soon as either test is evaluated past its `and`.
   */
  function RecordVerdict(q: EmpresaQuery, record: Option<Empresa>): Verdict {
    match record
    case None => if Truthy(SearchKey(q.cnpj)) || Truthy(q.nome) then Fault else Miss
    case Some(e) => EmpresaVerdict(q, e)
  }

  /**
   * A company record is taken iff it is an object and the CNPJ test or the name
   * test holds; the tests raise on a `null` record when the CNPJ search key has digits or a name is given,
   * and on an object only when the CNPJ test fails and its name is `null`.
   */
  lemma RecordVerdictMeaning(q: EmpresaQuery, record: Option<Empresa>)
    ensures RecordVerdict(q, record) == Hit <==>
      record.Some? && (CnpjCriterion(SearchKey(q.cnpj), record.value.cnpj) || NameCriterion(q.nome, record.value.nome))
    ensures RecordVerdict(q, record) == Fault <==>
      if record.None? then Truthy(SearchKey(q.cnpj)) || Truthy(q.nome)
      else !CnpjCriterion(SearchKey(q.cnpj), record.value.cnpj) && NameFault(q.nome, record.value.nome)
  {
    if record.Some? {
      NameVerdictMeaning(q.nome, record.value.nome);
    }
  }

  /** `{'codigo': ..., 'nome': ..., 'cnpj': ..., 'codigo_neoenergia': ..., 'categoria': ...}` */
  function Reshape(categoria: string, codigo: string, e: Empresa): EmpresaPagadora {
    EmpresaPagadora(codigo, e.nome.Get(), e.cnpj.Get(), e.codigoNeoEnergia.Get(), categoria)
  }

  /** The inner loop over one category's companies. */
  function SearchCompanies(categoria: string, companies: seq<(string, Option<Empresa>)>, q: EmpresaQuery): (r: Lookup<(string, EmpresaPagadora)>)
  {
    if companies == [] then NotFound
    else
      var (codigo, record) := companies[0];
      match RecordVerdict(q, record)
      case Hit => Found((categoria, Reshape(categoria, codigo, record.value)))
      case Fault => Raised
      case Miss => SearchCompanies(categoria, companies[1..], q)
  }

  /**
   * The outer loop over the categories: `empresas.items()` raises on a `null`
   * category, and a category without a hit passes on to the next.
   */
  function SearchCategories(categories: seq<Category>, q: EmpresaQuery): (r: Lookup<(string, EmpresaPagadora)>)
  {
    if categories == [] then NotFound
    else match categories[0].companies
      case None => Raised
      case Some(companies) =>
        match SearchCompanies(categories[0].name, companies, q)
        case NotFound => SearchCategories(categories[1..], q)
        case r => r
  }

  /** `find_empresa_pagadora(cnpj, nome)` over the loaded data (`None` when loading failed). */
  function FindEmpresaPagadora(data: Option<seq<Category>>, q: EmpresaQuery): (r: Lookup<(string, EmpresaPagadora)>)
    ensures data.None? ==> r.NotFound?
  {
    if data.None? then NotFound else SearchCategories(data.value, q)
  }

  /**
   * When the data is loaded, the search goes through the entries category by
   * category, each category's companies in order. It returns the first company
   * that matches, with its category and a record whose `codigo` is the company's
   * key and whose `categoria` is that category; or it raises at the first entry
   * that raises (a `null` category, a `null` record, a `null` name asked for);
   * or it returns `(None, None)` when every entry misses.
   */
  lemma FindEmpresaPagadoraScans(data: seq<Category>, q: EmpresaQuery)
    ensures var r := FindEmpresaPagadora(Some(data), q);
      var entries := Entries(data);
      && (r.NotFound? <==> forall i :: 0 <= i < |entries| ==> EntryVerdict(q, entries[i]) == Miss)
      && (r.Found? ==> r.value.1.categoria == r.value.0)
      && (r.Found? ==>
            exists i :: FirstDecisive(entries, EntryVerdictOf(q), i) &&
              EntryVerdict(q, entries[i]) == Hit &&
              entries[i].Listed? && entries[i].record.Some? &&
              r.value.0 == entries[i].categoria && r.value.1.codigo == entries[i].codigo &&
              r.value == EntryAnswer(entries[i]))
      && (r.Raised? ==>
            exists i :: FirstDecisive(entries, EntryVerdictOf(q), i) &&
              EntryVerdict(q, entries[i]) == Fault)
  {
    SearchCategoriesFlat(data, q);
    var entries := Entries(data);
    assert forall i :: 0 <= i < |entries| ==> EntryVerdictOf(q)(entries[i]) == EntryVerdict(q, entries[i]);
  }

  /**
   * One step of the flat search: a company listed under its category, or a
   * category whose value is `null`.
   */
  datatype Entry =
    | NullCategory(categoria: string)
    | Listed(categoria: string, codigo: string, record: Option<Empresa>)

  /** All entries, category by category, each category's companies in order. */
  function Entries(categories: seq<Category>): seq<Entry> {
    if categories == [] then []
    else CategoryEntries(categories[0]) + Entries(categories[1..])
  }

  function CategoryEntries(c: Category): seq<Entry> {
    match c.companies
    case None => [NullCategory(c.name)]
    case Some(companies) => ListedEntries(c.name, companies)
  }

  function ListedEntries(categoria: string, companies: seq<(string, Option<Empresa>)>): (r: seq<Entry>)
    ensures |r| == |companies|
    ensures forall k :: 0 <= k < |r| ==> r[k] == Listed(categoria, companies[k].0, companies[k].1)
  {
    seq(|companies|, k requires 0 <= k < |companies| => Listed(categoria, companies[k].0, companies[k].1))
  }

  function EntryVerdict(q: EmpresaQuery, e: Entry): Verdict {
    match e
    case NullCategory(_) => Fault
    case Listed(_, _, record) => RecordVerdict(q, record)
  }

  function EntryVerdictOf(q: EmpresaQuery): Entry -> Verdict {
    e => EntryVerdict(q, e)
  }

  /** The pair `find_empresa_pagadora` returns for a company found at entry `e`. */
  function EntryAnswer(e: Entry): (string, EmpresaPagadora)
    requires e.Listed? && e.record.Some?
  {
    (e.categoria, Reshape(e.categoria, e.codigo, e.record.value))
  }

  /** The answer for the outcome of the flat search; only a listed company with a record is ever a hit. */
  function AsAnswer(r: Lookup<Entry>): Lookup<(string, EmpresaPagadora)> {
    match r
    case NotFound => NotFound
    case Found(e) => if e.Listed? && e.record.Some? then Found(EntryAnswer(e)) else Raised
    case Raised => Raised
  }

  /** The inner loop is the flat scan of that category's entries. */
  lemma {:induction false} SearchCompaniesFlat(categoria: string, companies: seq<(string, Option<Empresa>)>, q: EmpresaQuery)
    ensures SearchCompanies(categoria, companies, q)
         == AsAnswer(FirstMatch(ListedEntries(categoria, companies), EntryVerdictOf(q)))
    decreases |companies|
  {
    var entries := ListedEntries(categoria, companies);
    if companies != [] {
      SearchCompaniesFlat(categoria, companies[1..], q);
      assert entries[1..] == ListedEntries(categoria, companies[1..]);
      assert EntryVerdictOf(q)(entries[0]) == RecordVerdict(q, companies[0].1);
    }
  }

  /** Scanning a concatenation: the first part decides unless it finds nothing. */
  lemma {:induction false} FirstMatchAppend<T>(xs: seq<T>, ys: seq<T>, verdict: T -> Verdict)
    ensures FirstMatch(xs + ys, verdict) ==
      if FirstMatch(xs, verdict).NotFound? then FirstMatch(ys, verdict) else FirstMatch(xs, verdict)
  {
    if xs != [] {
      assert (xs + ys)[0] == xs[0];
      assert (xs + ys)[1..] == xs[1..] + ys;
      FirstMatchAppend(xs[1..], ys, verdict);
    } else {
      assert xs + ys == ys;
    }
  }

  /**
   * The nested loops over categories and companies search the entries in one flat
   * order: category by category, each category's companies in order.
   */
  lemma {:induction false} SearchCategoriesFlat(categories: seq<Category>, q: EmpresaQuery)
    ensures SearchCategories(categories, q) == AsAnswer(FirstMatch(Entries(categories), EntryVerdictOf(q)))
  {
    if categories != [] {
      var c := categories[0];
      FirstMatchAppend(CategoryEntries(c), Entries(categories[1..]), EntryVerdictOf(q));
      SearchCategoriesFlat(categories[1..], q);
      match c.companies
      case None =>
        assert FirstMatch(CategoryEntries(c), EntryVerdictOf(q)) == Raised;
      case Some(companies) =>
        SearchCompaniesFlat(c.name, companies, q);
    }
  }

  /** No category value and no company record is JSON `null`. */
  predicate NullFree(data: seq<Category>) {
    forall k :: 0 <= k < |data| ==>
      && data[k].companies.Some?
      && (forall j :: 0 <= j < |data[k].companies.value| ==> data[k].companies.value[j].1.Some?)
  }

  /** In data without `null`s every entry is a listed company with a record. */
  lemma {:induction false} NullFreeEntries(data: seq<Category>)
    requires NullFree(data)
    ensures forall i :: 0 <= i < |Entries(data)| ==> Entries(data)[i].Listed? && Entries(data)[i].record.Some?
  {
    if data != [] {
      assert forall k :: 0 <= k < |data[1..]| ==> data[1..][k] == data[k + 1];
      NullFreeEntries(data[1..]);
      var head := CategoryEntries(data[0]);
      assert data[0].companies.Some?;
      assert forall i :: 0 <= i < |head| ==> head[i].Listed? && head[i].record.Some?;
    }
  }

  /**
   * A CNPJ argument without digits gives the empty search key, which is falsy: the
   * `and` stops before `.get`, so a `null` record is passed over without raising.
   */
  lemma NullRecordSkippedWithoutDigits(name: string, codigo: string, c: string)
    requires Digits(c) == []
    ensures FindEmpresaPagadora(Some([Category(name, Some([(codigo, None)]))]), EmpresaQuery(Some(c), None)) == NotFound
  {
    var data := [Category(name, Some([(codigo, None)]))];
    assert Entries(data) == [Listed(name, codigo, None)];
    FindEmpresaPagadoraScans(data, EmpresaQuery(Some(c), None));
  }

  /** A search by CNPJ alone raises only on a `null` category or a `null` company record. */
  lemma EmpresaCnpjQueryRaisesOnlyOnNull(data: Option<seq<Category>>, c: string)
    ensures FindEmpresaPagadora(data, EmpresaQuery(Some(c), None)).Raised? ==> data.Some? && !NullFree(data.value)
  {
    if data.Some? && NullFree(data.value) {
      FindEmpresaPagadoraScans(data.value, EmpresaQuery(Some(c), None));
      NullFreeEntries(data.value);
    }
  }

  /** A `null` first category makes every search raise: `.items()` is called on `None`. */
  lemma NullCategoryRaises(name: string, rest: seq<Category>, q: EmpresaQuery)
    ensures FindEmpresaPagadora(Some([Category(name, None)] + rest), q) == Raised
  {
    assert ([Category(name, None)] + rest)[0] == Category(name, None);
  }

  /** A `null` first record makes a search by a CNPJ with digits raise: `.get` is called on `None`. */
  lemma NullRecordRaises(name: string, codigo: string, more: seq<(string, Option<Empresa>)>, rest: seq<Category>, c: string)
    requires Digits(c) != []
    ensures FindEmpresaPagadora(Some([Category(name, Some([(codigo, None)] + more))] + rest), EmpresaQuery(Some(c), None)) == Raised
  {
    var data := [Category(name, Some([(codigo, None)] + more))] + rest;
    assert data[0] == Category(name, Some([(codigo, None)] + more));
    assert ([(codigo, None)] + more)[0] == (codigo, None);
  }

  /** A `null` first record makes a search by a non-empty name raise too: `.get('nome', '')` is called on `None`. */
  lemma NullRecordRaisesOnName(name: string, codigo: string, more: seq<(string, Option<Empresa>)>, rest: seq<Category>, nome: string)
    requires nome != ""
    ensures FindEmpresaPagadora(Some([Category(name, Some([(codigo, None)] + more))] + rest), EmpresaQuery(None, Some(nome))) == Raised
  {
    var data := [Category(name, Some([(codigo, None)] + more))] + rest;
    assert data[0] == Category(name, Some([(codigo, None)] + more));
    assert ([(codigo, None)] + more)[0] == (codigo, None);
  }

  /** The search returns the first company that matches, with the category it is listed under. */
  lemma EmpresaFirstHitReturned(data: seq<Category>, q: EmpresaQuery, i: nat)
    requires FirstDecisive(Entries(data), EntryVerdictOf(q), i) && EntryVerdict(q, Entries(data)[i]) == Hit
    ensures Entries(data)[i].Listed? && Entries(data)[i].record.Some?
    ensures FindEmpresaPagadora(Some(data), q) == Found(EntryAnswer(Entries(data)[i]))
  {
    SearchCategoriesFlat(data, q);
    FirstMatchAt(Entries(data), EntryVerdictOf(q), i);
  }

}
