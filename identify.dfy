/**
 * `identify_companies_from_boleto`: extract the CNPJs of a boleto's text and, trying
 * them in order, fill two independent slots, the transmissora and the empresa
 * pagadora; a slot that is filled is not searched again. An exception ends the
 * loop and the result built so far is returned as it is.
 */
module BoletoIdentification {
  import opened Wrappers
  import opened Text
  import opened Json
  import opened CnpjText
  import opened CompanyLookup

  /** The `result` dictionary. */
  datatype Identification = Identification(
    transmissora: Option<Transmissora>,
    empresaPagadora: Option<EmpresaPagadora>,
    cnpjsEncontrados: seq<string>,
    sucesso: bool)

  /** Python truthiness of a transmissora dictionary: it has at least one key. */
  predicate NonEmptyRecord(t: Transmissora) {
    !(t.nome.Missing? && t.codigoFornecedor.Missing? && t.codigoOns.Missing? && t.idTransmissora.Missing?)
  }

  /** Neither dataset has a shape that makes a search by CNPJ raise. */
  predicate WellShaped(transmissoras: Option<TransmissorasData>, empresas: Option<seq<Category>>) {
    && !(transmissoras.Some? && Broken(transmissoras.value))
    && !(empresas.Some? && !NullFree(empresas.value))
  }

  /** The slots after some iterations of the loop, and whether an exception has escaped. */
  datatype Progress = Progress(transmissora: Option<Transmissora>, empresa: Option<EmpresaPagadora>, raised: bool)

  /** `if not result['transmissora']: ...`: search by this CNPJ while the slot is empty. */
  function TryTransmissora(p: Progress, cnpj: string, transmissoras: Option<TransmissorasData>): (r: Progress)
    ensures r.empresa == p.empresa
  {
    if p.transmissora.Some? then p
    else match FindTransmissora(transmissoras, CnpjQuery(cnpj))
      case Raised => p.(raised := true)
      case Found(t) => if NonEmptyRecord(t) then p.(transmissora := Some(t)) else p
      case NotFound => p
  }

  /** `if not result['empresa_pagadora']: ...`: search by this CNPJ while the slot is empty. */
  function TryEmpresa(p: Progress, cnpj: string, empresas: Option<seq<Category>>): (r: Progress)
    ensures r.transmissora == p.transmissora
  {
    if p.empresa.Some? then p
    else match FindEmpresaPagadora(empresas, EmpresaQuery(Some(cnpj), None))
      case Raised => p.(raised := true)
      case Found(answer) => p.(empresa := Some(answer.1))
      case NotFound => p
  }

  /** One iteration of the loop, for the CNPJ `cnpj`; nothing runs after an exception. */
  function Step(p: Progress, cnpj: string, transmissoras: Option<TransmissorasData>, empresas: Option<seq<Category>>): Progress {
    if p.raised then p
    else
      var q := TryTransmissora(p, cnpj, transmissoras);
      if q.raised then q else TryEmpresa(q, cnpj, empresas)
  }

  /** The loop run over `cnpjs`, or up to the iteration that raised. */
  function Run(cnpjs: seq<string>, transmissoras: Option<TransmissorasData>, empresas: Option<seq<Category>>): Progress
    decreases |cnpjs|
  {
    if cnpjs == [] then Progress(None, None, false)
    else Step(Run(cnpjs[..|cnpjs| - 1], transmissoras, empresas), cnpjs[|cnpjs| - 1], transmissoras, empresas)
  }

  lemma RunSnoc(cnpjs: seq<string>, i: nat, transmissoras: Option<TransmissorasData>, empresas: Option<seq<Category>>)
    requires i < |cnpjs|
    ensures Run(cnpjs[..i + 1], transmissoras, empresas) == Step(Run(cnpjs[..i], transmissoras, empresas), cnpjs[i], transmissoras, empresas)
  {
    assert cnpjs[..i + 1][..i] == cnpjs[..i];
  }

  /** One iteration that raises nothing takes the loop from `cnpjs[..i]` to `cnpjs[..i + 1]`. */
  lemma RunAdvances(cnpjs: seq<string>, i: nat, before: Progress, transmissoras: Option<TransmissorasData>, empresas: Option<seq<Category>>)
    requires i < |cnpjs| && Run(cnpjs[..i], transmissoras, empresas) == before && !before.raised
    requires !TryTransmissora(before, cnpjs[i], transmissoras).raised
    ensures Run(cnpjs[..i + 1], transmissoras, empresas) ==
      TryEmpresa(TryTransmissora(before, cnpjs[i], transmissoras), cnpjs[i], empresas)
  {
    RunSnoc(cnpjs, i, transmissoras, empresas);
  }

  /** What `identify_companies_from_boleto` returns, on the normal and on the exception path. */
  function Identify(text: string, transmissoras: Option<TransmissorasData>, empresas: Option<seq<Category>>): (r: Identification)
    ensures r.cnpjsEncontrados == ExtractCnpjs(text)
    ensures r.sucesso ==> r.transmissora.Some? || r.empresaPagadora.Some?
  {
    var cnpjs := ExtractCnpjs(text);
    var p := Run(cnpjs, transmissoras, empresas);
    Identification(p.transmissora, p.empresa, cnpjs, !p.raised && (p.transmissora.Some? || p.empresa.Some?))
  }

  /** An exception in iteration `i` returns the slots as that iteration left them, with `sucesso` false. */
  lemma ReturnOnException(text: string, i: nat, transmissoras: Option<TransmissorasData>, empresas: Option<seq<Category>>)
    requires i < |ExtractCnpjs(text)| && Run(ExtractCnpjs(text)[..i + 1], transmissoras, empresas).raised
    ensures var p := Run(ExtractCnpjs(text)[..i + 1], transmissoras, empresas);
      Identify(text, transmissoras, empresas) == Identification(p.transmissora, p.empresa, ExtractCnpjs(text), false)
  {
    RunStopsAtException(ExtractCnpjs(text), i + 1, transmissoras, empresas);
  }

  /** Once an exception has escaped, further CNPJs change nothing. */
  lemma {:induction false} RunStopsAtException(cnpjs: seq<string>, n: nat, transmissoras: Option<TransmissorasData>, empresas: Option<seq<Category>>)
    requires n <= |cnpjs| && Run(cnpjs[..n], transmissoras, empresas).raised
    ensures Run(cnpjs, transmissoras, empresas) == Run(cnpjs[..n], transmissoras, empresas)
    decreases |cnpjs| - n
  {
    if n < |cnpjs| {
      var m := |cnpjs| - 1;
      assert cnpjs[..m][..n] == cnpjs[..n];
      RunStopsAtException(cnpjs[..m], n, transmissoras, empresas);
    } else {
      assert cnpjs[..n] == cnpjs;
    }
  }

  /** The loop of `identify_companies_from_boleto`. */
  method IdentifyCompaniesFromBoleto(text: string, transmissoras: Option<TransmissorasData>, empresas: Option<seq<Category>>)
    returns (result: Identification)
    ensures result == Identify(text, transmissoras, empresas)
  {
    result := Identification(None, None, [], false);
    var cnpjs := ExtractCnpjs(text);
    result := result.(cnpjsEncontrados := cnpjs);
    for i := 0 to |cnpjs|
      invariant result.cnpjsEncontrados == cnpjs && !result.sucesso
      invariant Run(cnpjs[..i], transmissoras, empresas) == Progress(result.transmissora, result.empresaPagadora, false)
    {
      var cnpj := cnpjs[i];
      ghost var before := Progress(result.transmissora, result.empresaPagadora, false);
      if result.transmissora.None? {
        var found := FindTransmissora(transmissoras, CnpjQuery(cnpj));
        match found
        case Raised =>
          assert TryTransmissora(before, cnpj, transmissoras) == before.(raised := true);
          RunSnoc(cnpjs, i, transmissoras, empresas);
          ReturnOnException(text, i, transmissoras, empresas);
          return;
        case Found(t) =>
          if NonEmptyRecord(t) {
            result := result.(transmissora := Some(t));
          }
        case NotFound =>
      }
      ghost var middle := Progress(result.transmissora, result.empresaPagadora, false);
      assert middle == TryTransmissora(before, cnpj, transmissoras);
      if result.empresaPagadora.None? {
        var lookup := FindEmpresaPagadora(empresas, EmpresaQuery(Some(cnpj), None));
        match lookup
        case Raised =>
          assert TryEmpresa(middle, cnpj, empresas) == middle.(raised := true);
          RunSnoc(cnpjs, i, transmissoras, empresas);
          ReturnOnException(text, i, transmissoras, empresas);
          return;
        case Found(answer) =>
          result := result.(empresaPagadora := Some(answer.1));
        case NotFound =>
      }
      assert Progress(result.transmissora, result.empresaPagadora, false) == TryEmpresa(middle, cnpj, empresas);
      RunAdvances(cnpjs, i, before, transmissoras, empresas);
    }
    assert cnpjs[..|cnpjs|] == cnpjs;
    result := result.(sucesso := result.transmissora.Some? || result.empresaPagadora.Some?);
  }

  // ---------------------------------------------------------------------------
  // What the result holds
  // ---------------------------------------------------------------------------

  /** The first answer that is present. */
  function FirstSome<X>(answers: seq<Option<X>>): (r: Option<X>)
    ensures r.None? <==> forall i :: 0 <= i < |answers| ==> answers[i].None?
    ensures r.Some? ==> exists i :: 0 <= i < |answers| && answers[i] == r &&
                          forall j :: 0 <= j < i ==> answers[j].None?
  {
    if answers == [] then None
    else if answers[0].Some? then answers[0]
    else
      var r := FirstSome(answers[1..]);
      assert forall i :: 0 <= i < |answers[1..]| ==> answers[1..][i] == answers[i + 1];
      r
  }

  lemma {:induction false} FirstSomeSnoc<X>(answers: seq<Option<X>>, a: Option<X>)
    ensures FirstSome(answers + [a]) == if FirstSome(answers).Some? then FirstSome(answers) else a
  {
    if answers != [] {
      assert (answers + [a])[0] == answers[0];
      assert (answers + [a])[1..] == answers[1..] + [a];
      FirstSomeSnoc(answers[1..], a);
    }
  }

  /** The transmissora `find_transmissora(cnpj=c)` returns, if any. */
  function TransmissoraAnswer(transmissoras: Option<TransmissorasData>, c: string): Option<Transmissora> {
    var l := FindTransmissora(transmissoras, CnpjQuery(c));
    if l.Found? then Some(l.value) else None
  }

  /** The record `find_empresa_pagadora(cnpj=c)` returns, if any. */
  function EmpresaAnswer(empresas: Option<seq<Category>>, c: string): Option<EmpresaPagadora> {
    var l := FindEmpresaPagadora(empresas, EmpresaQuery(Some(c), None));
    if l.Found? then Some(l.value.1) else None
  }

  /** The transmissora found for each CNPJ. */
  function TransmissoraAnswers(transmissoras: Option<TransmissorasData>, cnpjs: seq<string>): (r: seq<Option<Transmissora>>)
    ensures |r| == |cnpjs|
    ensures forall i :: 0 <= i < |cnpjs| ==> r[i] == TransmissoraAnswer(transmissoras, cnpjs[i])
  {
    seq(|cnpjs|, i requires 0 <= i < |cnpjs| => TransmissoraAnswer(transmissoras, cnpjs[i]))
  }

  /** The empresa pagadora record found for each CNPJ. */
  function EmpresaAnswers(empresas: Option<seq<Category>>, cnpjs: seq<string>): (r: seq<Option<EmpresaPagadora>>)
    ensures |r| == |cnpjs|
    ensures forall i :: 0 <= i < |cnpjs| ==> r[i] == EmpresaAnswer(empresas, cnpjs[i])
  {
    seq(|cnpjs|, i requires 0 <= i < |cnpjs| => EmpresaAnswer(empresas, cnpjs[i]))
  }

  /** A transmissora found by CNPJ is never an empty dictionary, so `if transmissora:` always passes. */
  lemma FoundTransmissoraIsTruthy(transmissoras: Option<TransmissorasData>, c: string)
    requires FindTransmissora(transmissoras, CnpjQuery(c)).Found?
    ensures NonEmptyRecord(FindTransmissora(transmissoras, CnpjQuery(c)).value)
  {
    if Digits(c) == [] {
      EmptyCnpjKeyFindsNothing(transmissoras, c);
    } else {
      CnpjHitHasSupplierCode(transmissoras, c);
    }
  }

  lemma TransmissoraAnswersSnoc(transmissoras: Option<TransmissorasData>, cnpjs: seq<string>)
    requires cnpjs != []
    ensures var m := |cnpjs| - 1;
      TransmissoraAnswers(transmissoras, cnpjs) == TransmissoraAnswers(transmissoras, cnpjs[..m]) + [TransmissoraAnswer(transmissoras, cnpjs[m])]
  {
  }

  lemma EmpresaAnswersSnoc(empresas: Option<seq<Category>>, cnpjs: seq<string>)
    requires cnpjs != []
    ensures var m := |cnpjs| - 1;
      EmpresaAnswers(empresas, cnpjs) == EmpresaAnswers(empresas, cnpjs[..m]) + [EmpresaAnswer(empresas, cnpjs[m])]
  {
  }

  /** When neither dataset's shape raises, no search raises and the loop runs to the end. */
  lemma {:induction false} RunNeverRaises(cnpjs: seq<string>, transmissoras: Option<TransmissorasData>, empresas: Option<seq<Category>>)
    requires WellShaped(transmissoras, empresas)
    ensures !Run(cnpjs, transmissoras, empresas).raised
    decreases |cnpjs|
  {
    if cnpjs != [] {
      var m := |cnpjs| - 1;
      var p := Run(cnpjs[..m], transmissoras, empresas);
      RunNeverRaises(cnpjs[..m], transmissoras, empresas);
      TryTransmissoraAnswers(p, cnpjs[m], transmissoras);
      TryEmpresaAnswers(TryTransmissora(p, cnpjs[m], transmissoras), cnpjs[m], empresas);
    }
  }

  /** Without an exception, searching for the transmissora fills an empty slot with this CNPJ's answer. */
  lemma TryTransmissoraAnswers(p: Progress, c: string, transmissoras: Option<TransmissorasData>)
    requires !(transmissoras.Some? && Broken(transmissoras.value)) && !p.raised
    ensures !TryTransmissora(p, c, transmissoras).raised
    ensures TryTransmissora(p, c, transmissoras).transmissora ==
      if p.transmissora.Some? then p.transmissora else TransmissoraAnswer(transmissoras, c)
  {
    CnpjQueryRaisesIffBroken(transmissoras, c);
    if FindTransmissora(transmissoras, CnpjQuery(c)).Found? {
      FoundTransmissoraIsTruthy(transmissoras, c);
    }
  }

  /** Without an exception, searching for the empresa pagadora fills an empty slot with this CNPJ's answer. */
  lemma TryEmpresaAnswers(p: Progress, c: string, empresas: Option<seq<Category>>)
    requires !(empresas.Some? && !NullFree(empresas.value)) && !p.raised
    ensures !TryEmpresa(p, c, empresas).raised
    ensures TryEmpresa(p, c, empresas).empresa == if p.empresa.Some? then p.empresa else EmpresaAnswer(empresas, c)
  {
    EmpresaCnpjQueryRaisesOnlyOnNull(empresas, c);
  }

  /** A transmissora search that does not raise fills an empty slot with this CNPJ's answer. */
  lemma TryTransmissoraFills(p: Progress, c: string, transmissoras: Option<TransmissorasData>)
    requires !TryTransmissora(p, c, transmissoras).raised
    ensures TryTransmissora(p, c, transmissoras).transmissora ==
      if p.transmissora.Some? then p.transmissora else TransmissoraAnswer(transmissoras, c)
  {
    if FindTransmissora(transmissoras, CnpjQuery(c)).Found? {
      FoundTransmissoraIsTruthy(transmissoras, c);
    }
  }

  /** A paying-company search that does not raise fills an empty slot with this CNPJ's answer. */
  lemma TryEmpresaFills(p: Progress, c: string, empresas: Option<seq<Category>>)
    requires !TryEmpresa(p, c, empresas).raised
    ensures TryEmpresa(p, c, empresas).empresa == if p.empresa.Some? then p.empresa else EmpresaAnswer(empresas, c)
  {
  }

  /** A run that raises nothing raised nothing on any shorter prefix either. */
  lemma RunPrefixNotRaised(cnpjs: seq<string>, transmissoras: Option<TransmissorasData>, empresas: Option<seq<Category>>)
    requires cnpjs != [] && !Run(cnpjs, transmissoras, empresas).raised
    ensures var p := Run(cnpjs[..|cnpjs| - 1], transmissoras, empresas);
      && !p.raised
      && !TryTransmissora(p, cnpjs[|cnpjs| - 1], transmissoras).raised
      && !TryEmpresa(TryTransmissora(p, cnpjs[|cnpjs| - 1], transmissoras), cnpjs[|cnpjs| - 1], empresas).raised
  {
  }

  /** If the loop raises nothing, the transmissora slot holds the answer for the earliest CNPJ that has one. */
  lemma {:induction false} RunFillsTransmissora(cnpjs: seq<string>, transmissoras: Option<TransmissorasData>, empresas: Option<seq<Category>>)
    requires !Run(cnpjs, transmissoras, empresas).raised
    ensures Run(cnpjs, transmissoras, empresas).transmissora == FirstSome(TransmissoraAnswers(transmissoras, cnpjs))
    decreases |cnpjs|
  {
    if cnpjs != [] {
      var m := |cnpjs| - 1;
      var c := cnpjs[m];
      var p := Run(cnpjs[..m], transmissoras, empresas);
      RunPrefixNotRaised(cnpjs, transmissoras, empresas);
      RunFillsTransmissora(cnpjs[..m], transmissoras, empresas);
      TryTransmissoraFills(p, c, transmissoras);
      TransmissoraAnswersSnoc(transmissoras, cnpjs);
      FirstSomeSnoc(TransmissoraAnswers(transmissoras, cnpjs[..m]), TransmissoraAnswer(transmissoras, c));
    }
  }

  /** If the loop raises nothing, the empresa pagadora slot holds the answer for the earliest CNPJ that has one. */
  lemma {:induction false} RunFillsEmpresa(cnpjs: seq<string>, transmissoras: Option<TransmissorasData>, empresas: Option<seq<Category>>)
    requires !Run(cnpjs, transmissoras, empresas).raised
    ensures Run(cnpjs, transmissoras, empresas).empresa == FirstSome(EmpresaAnswers(empresas, cnpjs))
    decreases |cnpjs|
  {
    if cnpjs != [] {
      var m := |cnpjs| - 1;
      var c := cnpjs[m];
      var p := Run(cnpjs[..m], transmissoras, empresas);
      RunPrefixNotRaised(cnpjs, transmissoras, empresas);
      RunFillsEmpresa(cnpjs[..m], transmissoras, empresas);
      TryEmpresaFills(TryTransmissora(p, c, transmissoras), c, empresas);
      EmpresaAnswersSnoc(empresas, cnpjs);
      FirstSomeSnoc(EmpresaAnswers(empresas, cnpjs[..m]), EmpresaAnswer(empresas, c));
    }
  }

  /** A loop that raises has a first iteration that raises. */
  lemma {:induction false} FirstRaise(cnpjs: seq<string>, transmissoras: Option<TransmissorasData>, empresas: Option<seq<Category>>)
    requires Run(cnpjs, transmissoras, empresas).raised
    ensures exists n :: 0 <= n < |cnpjs| && !Run(cnpjs[..n], transmissoras, empresas).raised && Run(cnpjs[..n + 1], transmissoras, empresas).raised
    decreases |cnpjs|
  {
    var m := |cnpjs| - 1;
    assert cnpjs[..m + 1] == cnpjs;
    if Run(cnpjs[..m], transmissoras, empresas).raised {
      FirstRaise(cnpjs[..m], transmissoras, empresas);
      var n :| 0 <= n < m && !Run(cnpjs[..m][..n], transmissoras, empresas).raised && Run(cnpjs[..m][..n + 1], transmissoras, empresas).raised;
      assert cnpjs[..m][..n] == cnpjs[..n] && cnpjs[..m][..n + 1] == cnpjs[..n + 1];
    }
  }

  /**
   * The slots an iteration `n` that raises leaves behind: the earliest transmissora
   * among the CNPJs up to and including `n`, the earliest paying company before `n`.
   */
  function RaisedAt(cnpjs: seq<string>, n: nat, transmissoras: Option<TransmissorasData>, empresas: Option<seq<Category>>): Progress
    requires n < |cnpjs|
  {
    Progress(FirstSome(TransmissoraAnswers(transmissoras, cnpjs[..n + 1])), FirstSome(EmpresaAnswers(empresas, cnpjs[..n])), true)
  }

  /**
   * The slots after an iteration `n` that raises: the transmissora slot holds the
   * earliest transmissora among the CNPJs up to and including `n` (a transmissora
   * search that raised found nothing), the paying-company slot the earliest one
   * among the CNPJs before `n` (a paying-company search that raised found nothing).
   */
  lemma RaisingStep(cnpjs: seq<string>, n: nat, transmissoras: Option<TransmissorasData>, empresas: Option<seq<Category>>)
    requires n < |cnpjs| && !Run(cnpjs[..n], transmissoras, empresas).raised && Run(cnpjs[..n + 1], transmissoras, empresas).raised
    ensures Run(cnpjs[..n + 1], transmissoras, empresas) == RaisedAt(cnpjs, n, transmissoras, empresas)
  {
    var c := cnpjs[n];
    var p := Run(cnpjs[..n], transmissoras, empresas);
    RunSnoc(cnpjs, n, transmissoras, empresas);
    RunFillsTransmissora(cnpjs[..n], transmissoras, empresas);
    RunFillsEmpresa(cnpjs[..n], transmissoras, empresas);
    var earliest := FirstSome(TransmissoraAnswers(transmissoras, cnpjs[..n + 1]));
    EarliestTransmissoraSnoc(cnpjs, n, transmissoras);
    var q := TryTransmissora(p, c, transmissoras);
    if q.raised {
      assert p.transmissora.None? && TransmissoraAnswer(transmissoras, c).None?;
      assert Run(cnpjs[..n + 1], transmissoras, empresas) == p.(raised := true);
    } else {
      TryTransmissoraFills(p, c, transmissoras);
      assert q.transmissora == earliest;
      assert Run(cnpjs[..n + 1], transmissoras, empresas) == q.(raised := true);
    }
  }

  /** The earliest transmissora up to `cnpjs[n]`: the one before it, or else `cnpjs[n]`'s own. */
  lemma EarliestTransmissoraSnoc(cnpjs: seq<string>, n: nat, transmissoras: Option<TransmissorasData>)
    requires n < |cnpjs|
    ensures var before := FirstSome(TransmissoraAnswers(transmissoras, cnpjs[..n]));
      FirstSome(TransmissoraAnswers(transmissoras, cnpjs[..n + 1])) ==
        if before.Some? then before else TransmissoraAnswer(transmissoras, cnpjs[n])
  {
    assert cnpjs[..n + 1][..n] == cnpjs[..n] && cnpjs[..n + 1][n] == cnpjs[n];
    TransmissoraAnswersSnoc(transmissoras, cnpjs[..n + 1]);
    FirstSomeSnoc(TransmissoraAnswers(transmissoras, cnpjs[..n]), TransmissoraAnswer(transmissoras, cnpjs[n]));
  }

  /** When the transmissoras data raises, the first search raises and both slots stay empty. */
  lemma {:induction false} RunRaisesAtOnce(cnpjs: seq<string>, transmissoras: Option<TransmissorasData>, empresas: Option<seq<Category>>)
    requires transmissoras.Some? && Broken(transmissoras.value) && cnpjs != []
    ensures Run(cnpjs, transmissoras, empresas) == Progress(None, None, true)
    decreases |cnpjs|
  {
    var m := |cnpjs| - 1;
    if m > 0 {
      RunRaisesAtOnce(cnpjs[..m], transmissoras, empresas);
    } else {
      assert cnpjs[..m] == [];
      CnpjQueryRaisesIffBroken(transmissoras, cnpjs[m]);
    }
  }

  /**
   * `cnpjs_encontrados` is the extraction list; each slot holds the answer for the
   * earliest CNPJ that has one; `sucesso` holds exactly when a slot is filled.
   */
  lemma IdentifyFillsEarliest(text: string, transmissoras: Option<TransmissorasData>, empresas: Option<seq<Category>>)
    requires !Run(ExtractCnpjs(text), transmissoras, empresas).raised
    ensures var r := Identify(text, transmissoras, empresas);
      && r.cnpjsEncontrados == ExtractCnpjs(text)
      && r.transmissora == FirstSome(TransmissoraAnswers(transmissoras, ExtractCnpjs(text)))
      && r.empresaPagadora == FirstSome(EmpresaAnswers(empresas, ExtractCnpjs(text)))
      && (r.sucesso <==> r.transmissora.Some? || r.empresaPagadora.Some?)
  {
    RunFillsTransmissora(ExtractCnpjs(text), transmissoras, empresas);
    RunFillsEmpresa(ExtractCnpjs(text), transmissoras, empresas);
  }

  /** A loop that raises stops with the slots as its first raising iteration left them. */
  lemma RunOnException(cnpjs: seq<string>, transmissoras: Option<TransmissorasData>, empresas: Option<seq<Category>>)
    requires Run(cnpjs, transmissoras, empresas).raised
    ensures exists n :: 0 <= n < |cnpjs| && Run(cnpjs, transmissoras, empresas) == RaisedAt(cnpjs, n, transmissoras, empresas)
  {
    FirstRaise(cnpjs, transmissoras, empresas);
    var n :| 0 <= n < |cnpjs| && !Run(cnpjs[..n], transmissoras, empresas).raised && Run(cnpjs[..n + 1], transmissoras, empresas).raised;
    RaisingStep(cnpjs, n, transmissoras, empresas);
    RunStopsAtException(cnpjs, n + 1, transmissoras, empresas);
    assert Run(cnpjs, transmissoras, empresas) == RaisedAt(cnpjs, n, transmissoras, empresas);
  }

  /**
   * The exception path: when some iteration raises, the result keeps the slots as
   * the first raising iteration left them, lists every extracted CNPJ and has
   * `sucesso` false.
   */
  lemma IdentifyOnException(text: string, transmissoras: Option<TransmissorasData>, empresas: Option<seq<Category>>)
    requires Run(ExtractCnpjs(text), transmissoras, empresas).raised
    ensures exists n ::
      && 0 <= n < |ExtractCnpjs(text)|
      && Identify(text, transmissoras, empresas) == Identification(
           RaisedAt(ExtractCnpjs(text), n, transmissoras, empresas).transmissora,
           RaisedAt(ExtractCnpjs(text), n, transmissoras, empresas).empresa,
           ExtractCnpjs(text), false)
  {
    var cnpjs := ExtractCnpjs(text);
    RunOnException(cnpjs, transmissoras, empresas);
    var n :| 0 <= n < |cnpjs| && Run(cnpjs, transmissoras, empresas) == RaisedAt(cnpjs, n, transmissoras, empresas);
    var p := RaisedAt(cnpjs, n, transmissoras, empresas);
    assert Identify(text, transmissoras, empresas) == Identification(p.transmissora, p.empresa, cnpjs, false);
  }

  /**
   * When the transmissoras data raises and the text holds a CNPJ, the exception comes
   * at the first search: the result keeps the CNPJs, both slots empty and `sucesso` false.
   */
  lemma IdentifyReturnsPartialResult(text: string, transmissoras: Option<TransmissorasData>, empresas: Option<seq<Category>>)
    requires transmissoras.Some? && Broken(transmissoras.value) && ExtractCnpjs(text) != []
    ensures Identify(text, transmissoras, empresas) == Identification(None, None, ExtractCnpjs(text), false)
  {
    RunRaisesAtOnce(ExtractCnpjs(text), transmissoras, empresas);
  }

  /**
   * An exception after a slot was filled: the transmissora is found for the first
   * CNPJ and the search for its paying company raises. The result keeps the
   * transmissora, with no paying company and `sucesso` false.
   */
  lemma IdentifyKeepsTransmissoraOnException(text: string, transmissoras: Option<TransmissorasData>, empresas: Option<seq<Category>>, t: Transmissora)
    requires ExtractCnpjs(text) != [] && TransmissoraAnswer(transmissoras, ExtractCnpjs(text)[0]) == Some(t)
    requires FindEmpresaPagadora(empresas, EmpresaQuery(Some(ExtractCnpjs(text)[0]), None)).Raised?
    ensures Identify(text, transmissoras, empresas) == Identification(Some(t), None, ExtractCnpjs(text), false)
  {
    var cnpjs := ExtractCnpjs(text);
    FoundTransmissoraIsTruthy(transmissoras, cnpjs[0]);
    RunSnoc(cnpjs, 0, transmissoras, empresas);
    assert cnpjs[..0] == [];
    var filled := TryTransmissora(Progress(None, None, false), cnpjs[0], transmissoras);
    assert filled == Progress(Some(t), None, false);
    assert TryEmpresa(filled, cnpjs[0], empresas) == Progress(Some(t), None, true);
    assert Run(cnpjs[..1], transmissoras, empresas) == Progress(Some(t), None, true);
    RunStopsAtException(cnpjs, 1, transmissoras, empresas);
    assert Run(cnpjs, transmissoras, empresas) == Progress(Some(t), None, true);
  }

  /** The two datasets are loaded together: when loading fails, nothing is found and nothing raises. */
  lemma IdentifyWithoutData(text: string)
    ensures Identify(text, None, None) == Identification(None, None, ExtractCnpjs(text), false)
  {
    var cnpjs := ExtractCnpjs(text);
    RunNeverRaises(cnpjs, None, None);
    IdentifyFillsEarliest(text, None, None);
    assert forall i :: 0 <= i < |cnpjs| ==> TransmissoraAnswers(None, cnpjs)[i].None?;
    assert forall i :: 0 <= i < |cnpjs| ==> EmpresaAnswers(None, cnpjs)[i].None?;
  }

  /** A filled slot is never overwritten by later CNPJs. */
  lemma {:induction false} SlotsNeverOverwritten(cnpjs: seq<string>, more: seq<string>, transmissoras: Option<TransmissorasData>, empresas: Option<seq<Category>>)
    ensures var before := Run(cnpjs, transmissoras, empresas);
      var after := Run(cnpjs + more, transmissoras, empresas);
      && (before.transmissora.Some? ==> after.transmissora == before.transmissora)
      && (before.empresa.Some? ==> after.empresa == before.empresa)
    decreases |more|
  {
    if more != [] {
      var m := |more| - 1;
      assert (cnpjs + more)[..|cnpjs + more| - 1] == cnpjs + more[..m];
      SlotsNeverOverwritten(cnpjs, more[..m], transmissoras, empresas);
    } else {
      assert cnpjs + more == cnpjs;
    }
  }
}
