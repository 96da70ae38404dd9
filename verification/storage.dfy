/**
 * The browser-local store (src/utils/storage.ts): two lists, people and
 * approach events, each kept as JSON under its own localStorage key.
 * The key's content is abstracted to a `Slot`; serialisation is exact.
 */
module Storage {
  import opened Wrappers
  import opened Types
  import opened Lists

  /** What a localStorage key holds: nothing, text JSON cannot parse, or a list. */
  datatype Slot<T> = Missing | Unparsable | Stored(items: seq<T>)

  /** The result of a write: done, or the error the source throws. */
  datatype Outcome = Done | Failed(message: string)

  const SavePessoaError := "Falha ao salvar pessoa no localStorage"
  const DeletePessoaError := "Falha ao excluir pessoa do localStorage"
  const SaveAbordagemError := "Falha ao salvar abordagem no localStorage"
  const DeleteAbordagemError := "Falha ao excluir abordagem do localStorage"

  /** `getPessoas` / `getAbordagens`: the stored list, or [] when missing or unparsable. */
  function Load<T>(slot: Slot<T>): seq<T> {
    if slot.Stored? then slot.items else []
  }

  /** `n.toString()` for a natural number, as `Date.now().toString()` gives. */
  function DecimalString(n: nat): (s: string)
    ensures |s| >= 1
    ensures forall k :: 0 <= k < |s| ==> '0' <= s[k] <= '9'
  {
    var last := [(('0' as int) + n % 10) as char];
    if n < 10 then last else DecimalString(n / 10) + last
  }

  /** Reads a string of decimal digits back as a number. */
  function DecimalValue(s: string): int {
    if s == [] then 0 else DecimalValue(s[..|s| - 1]) * 10 + ((s[|s| - 1] as int) - ('0' as int))
  }

  /** A generated id reads back as the clock value it came from. */
  lemma {:induction false} DecimalStringRoundTrip(n: nat)
    ensures DecimalValue(DecimalString(n)) == n
  {
    var s := DecimalString(n);
    if n >= 10 {
      DecimalStringRoundTrip(n / 10);
      assert s[..|s| - 1] == DecimalString(n / 10);
    }
  }

  /** `a || b` on an optional property: the first when present. */
  function Pick<T>(a: Option<T>, b: Option<T>): Option<T> {
    if a.Some? then a else b
  }

  /** A property the update has wins; one it lacks keeps the stored value. */
  predicate Overrides<T(==)>(r: Option<T>, stored: Option<T>, update: Option<T>) {
    if update.Some? then r == update else r == stored
  }

  /**
   * `{ ...stored, ...update, id: stored.id }`: every property the update has
   * overrides the stored one, the rest are kept, and the id is the stored id.
   */
  function Overlay(stored: Pessoa, update: Pessoa): (r: Pessoa)
    ensures r.id == stored.id
    ensures r.fotos == update.fotos && r.veiculos == update.veiculos
    ensures Overrides(r.nome, stored.nome, update.nome)
    ensures Overrides(r.nomeMae, stored.nomeMae, update.nomeMae)
    ensures Overrides(r.nomePai, stored.nomePai, update.nomePai)
    ensures Overrides(r.dataNascimento, stored.dataNascimento, update.dataNascimento)
    ensures Overrides(r.rg, stored.rg, update.rg)
    ensures Overrides(r.cpf, stored.cpf, update.cpf)
    ensures Overrides(r.endereco, stored.endereco, update.endereco)
    ensures Overrides(r.fotoPerfil, stored.fotoPerfil, update.fotoPerfil)
    ensures Overrides(r.anotacoes, stored.anotacoes, update.anotacoes)
  {
    Pessoa(
      stored.id,
      Pick(update.nome, stored.nome),
      Pick(update.nomeMae, stored.nomeMae),
      Pick(update.nomePai, stored.nomePai),
      Pick(update.dataNascimento, stored.dataNascimento),
      Pick(update.rg, stored.rg),
      Pick(update.cpf, stored.cpf),
      Pick(update.endereco, stored.endereco),
      Pick(update.fotoPerfil, stored.fotoPerfil),
      update.fotos,
      update.veiculos,
      Pick(update.anotacoes, stored.anotacoes))
  }

  /** Saving the same update twice has the effect of saving it once. */
  lemma OverlayIdempotent(stored: Pessoa, update: Pessoa)
    ensures Overlay(Overlay(stored, update), update) == Overlay(stored, update)
  {
  }

  /** An update with the stored id and every property present replaces the record outright. */
  lemma OverlayFullUpdate(stored: Pessoa, update: Pessoa)
    requires update.id == stored.id
    requires update.nome.Some? && update.nomeMae.Some? && update.nomePai.Some?
    requires update.dataNascimento.Some? && update.rg.Some? && update.cpf.Some?
    requires update.endereco.Some? && update.fotoPerfil.Some? && update.anotacoes.Some?
    ensures Overlay(stored, update) == update
  {
  }

  /** `query.toLowerCase()` on one character: ASCII and Latin-1 capitals. */
  function LowerChar(c: char): char {
    if 'A' <= c <= 'Z' then ((c as int) + 32) as char
    else if '\U{C0}' <= c <= '\U{DE}' && c != '\U{D7}' then ((c as int) + 32) as char
    else c
  }

  function Lower(s: string): string {
    seq(|s|, k requires 0 <= k < |s| => LowerChar(s[k]))
  }

  /** The characters `String.prototype.trim` removes: white space and line terminators. */
  predicate IsTrimmed(c: char) {
    || c == ' ' || c == '\t' || c == '\n' || c == '\r' || c == '\U{0B}' || c == '\U{0C}'
    || c == '\U{A0}' || c == '\U{1680}' || ('\U{2000}' <= c <= '\U{200A}')
    || c == '\U{2028}' || c == '\U{2029}' || c == '\U{202F}' || c == '\U{205F}'
    || c == '\U{3000}' || c == '\U{FEFF}'
  }

  /** How much white space `s` starts with. */
  function LeadingSpace(s: string): (n: nat)
    ensures n <= |s|
    ensures forall k :: 0 <= k < n ==> IsTrimmed(s[k])
    ensures n < |s| ==> !IsTrimmed(s[n])
  {
    if s != [] && IsTrimmed(s[0]) then 1 + LeadingSpace(s[1..]) else 0
  }

  /** Where the white space that `s` ends with begins. */
  function ContentEnd(s: string): (n: nat)
    ensures n <= |s|
    ensures forall k :: n <= k < |s| ==> IsTrimmed(s[k])
    ensures 0 < n ==> !IsTrimmed(s[n - 1])
  {
    if s != [] && IsTrimmed(s[|s| - 1]) then ContentEnd(s[..|s| - 1]) else |s|
  }

  /**
   * `query.toLowerCase().trim()`: a stretch of the lower-cased query that
   * neither starts nor ends with white space, with only white space cut
   * on either side.
   */
  function SearchTerm(query: string): (r: string)
    ensures |r| <= |query|
    ensures r != [] ==> !IsTrimmed(r[0]) && !IsTrimmed(r[|r| - 1])
    ensures exists i :: TrimmedAt(Lower(query), r, i)
  {
    var l := Lower(query);
    var t := l[LeadingSpace(l)..];
    var r := t[..ContentEnd(t)];
    PrefixOfSuffix(l, t, r);
    r
  }

  /**
   * A prefix `r` of a suffix `t` of `l` sits in `l` where `t` starts, and
   * what `t` has after `r` is what `l` has after it.
   */
  lemma PrefixOfSuffix(l: string, t: string, r: string)
    requires |t| <= |l| && forall k :: 0 <= k < |t| ==> t[k] == l[|l| - |t| + k]
    requires |r| <= |t| && forall k :: 0 <= k < |r| ==> r[k] == t[k]
    requires forall k :: 0 <= k < |l| - |t| ==> IsTrimmed(l[k])
    requires forall k :: |r| <= k < |t| ==> IsTrimmed(t[k])
    ensures TrimmedAt(l, r, |l| - |t|)
  {
    var i := |l| - |t|;
    forall k | i + |r| <= k < |l|
      ensures IsTrimmed(l[k])
    {
      assert l[k] == t[k - i];
    }
  }

  /** `r` is `s[i..i + |r|]` and everything of `s` outside it is white space. */
  predicate TrimmedAt(s: string, r: string, i: int) {
    && 0 <= i <= |s| - |r|
    && (forall k :: 0 <= k < |r| ==> r[k] == s[i + k])
    && (forall k :: 0 <= k < i ==> IsTrimmed(s[k]))
    && (forall k :: i + |r| <= k < |s| ==> IsTrimmed(s[k]))
  }

  /** `s.includes(sub)` */
  predicate Contains(s: string, sub: string) {
    exists k :: 0 <= k <= |s| && OccursAt(s, sub, k)
  }

  predicate OccursAt(s: string, sub: string, k: nat) {
    k + |sub| <= |s| && s[k..k + |sub|] == sub
  }

  /** `(field?.toLowerCase() || '')` */
  function LowerOrEmpty(field: Option<string>): string {
    if field.Some? then Lower(field.value) else ""
  }

  /** The test `searchPessoas` applies to each person. */
  predicate Matches(p: Pessoa, term: string) {
    || Contains(LowerOrEmpty(p.nome), term)
    || Contains(LowerOrEmpty(p.nomeMae), term)
    || Contains(LowerOrEmpty(p.nomePai), term)
    || Contains(LowerOrEmpty(p.rg), term)
    || Contains(LowerOrEmpty(p.cpf), term)
  }

  /**
   * `pessoas.filter(p => <Matches>)`: the matching people, in their order and
   * each as often as it occurs.
   */
  function Matching(pessoas: seq<Pessoa>, term: string): (r: seq<Pessoa>)
    ensures forall k :: 0 <= k < |r| ==> r[k] in pessoas && Matches(r[k], term)
    ensures SubseqOf(r, pessoas)
    ensures forall k :: 0 <= k < |pessoas| && Matches(pessoas[k], term) ==>
              multiset(r)[pessoas[k]] == multiset(pessoas)[pessoas[k]]
  {
    var f := (p: Pessoa) => Matches(p, term);
    FilterKeepsOrder(pessoas, f);
    FilterKeepsCounts(pessoas, f);
    Filter(pessoas, f)
  }

  /** `abordagens.filter(a => a.pessoas.some(p => p.id === pessoaId))` */
  function InvolvingPessoa(abordagens: seq<Abordagem>, pessoaId: string): (r: seq<Abordagem>)
    ensures forall k :: 0 <= k < |r| ==> r[k] in abordagens && Involves(r[k], pessoaId)
    ensures forall k :: 0 <= k < |abordagens| && Involves(abordagens[k], pessoaId) ==> abordagens[k] in r
    ensures SubseqOf(r, abordagens)
    ensures forall k :: 0 <= k < |abordagens| && Involves(abordagens[k], pessoaId) ==>
              multiset(r)[abordagens[k]] == multiset(abordagens)[abordagens[k]]
  {
    var f := (a: Abordagem) => Involves(a, pessoaId);
    FilterKeepsOrder(abordagens, f);
    FilterKeepsCounts(abordagens, f);
    Filter(abordagens, f)
  }

  /** `.sort((a, b) => time(b.timestamp) - time(a.timestamp))`: a reordering, newest first. */
  function NewestEventsFirst(abordagens: seq<Abordagem>, timeOf: string -> int): (r: seq<Abordagem>)
    ensures multiset(r) == multiset(abordagens)
    ensures forall i, j :: 0 <= i < j < |r| ==> timeOf(r[i].timestamp) >= timeOf(r[j].timestamp)
  {
    var r := NewestFirst(abordagens, (a: Abordagem) => timeOf(a.timestamp));
    assert forall i, j :: 0 <= i < j < |r| ==> timeOf(r[i].timestamp) >= timeOf(r[j].timestamp);
    r
  }

  /** The two localStorage keys the source uses, and the operations on them. */
  class LocalStore {
    var pessoasSlot: Slot<Pessoa>
    var abordagensSlot: Slot<Abordagem>

    constructor (pessoasSlot: Slot<Pessoa>, abordagensSlot: Slot<Abordagem>)
      ensures this.pessoasSlot == pessoasSlot && this.abordagensSlot == abordagensSlot
    {
      this.pessoasSlot := pessoasSlot;
      this.abordagensSlot := abordagensSlot;
    }

    /** `getPessoas` */
    function Pessoas(): seq<Pessoa>
      reads this
    {
      Load(pessoasSlot)
    }

    /** `getAbordagens` */
    function Abordagens(): seq<Abordagem>
      reads this
    {
      Load(abordagensSlot)
    }

    /** `getPessoa`: the first stored person with this id, or null. */
    function GetPessoa(id: string): (r: Option<Pessoa>)
      reads this
      ensures r.None? <==> forall k :: 0 <= k < |Pessoas()| ==> Pessoas()[k].id != id
      ensures r.Some? ==> exists k :: 0 <= k < |Pessoas()| && Pessoas()[k] == r.value
                                    && r.value.id == id
                                    && forall m :: 0 <= m < k ==> Pessoas()[m].id != id
    {
      var k := IndexOf(Pessoas(), PessoaId, id);
      if k < 0 then None else Some(Pessoas()[k])
    }

    /** `getAbordagem`: the first stored event with this id, or null. */
    function GetAbordagem(id: string): (r: Option<Abordagem>)
      reads this
      ensures r.None? <==> forall k :: 0 <= k < |Abordagens()| ==> Abordagens()[k].id != id
      ensures r.Some? ==> exists k :: 0 <= k < |Abordagens()| && Abordagens()[k] == r.value
                                    && r.value.id == id
                                    && forall m :: 0 <= m < k ==> Abordagens()[m].id != id
    {
      var k := IndexOf(Abordagens(), AbordagemId, id);
      if k < 0 then None else Some(Abordagens()[k])
    }

    /**
     * `savePessoa`: overlays the update on the first person with the same id,
     * or appends it (with a clock-generated id when its own is empty); then
     * writes the list back. `writeOk` is whether localStorage accepts the write.
     */
    method SavePessoa(p: Pessoa, now: nat, writeOk: bool) returns (r: Outcome)
      modifies this
      ensures abordagensSlot == old(abordagensSlot)
      ensures r == if writeOk then Done else Failed(SavePessoaError)
      ensures !writeOk ==> pessoasSlot == old(pessoasSlot)
      ensures writeOk ==> pessoasSlot.Stored?
      ensures writeOk ==>
        var before := old(Pessoas());
        var i := IndexOf(before, PessoaId, p.id);
        if i >= 0 then
          && |Pessoas()| == |before|
          && Pessoas()[i] == Overlay(before[i], p)
          && (forall k :: 0 <= k < |before| && k != i ==> Pessoas()[k] == before[k])
        else
          Pessoas() == before + [p.(id := if p.id == "" then DecimalString(now) else p.id)]
      ensures writeOk && IndexOf(old(Pessoas()), PessoaId, p.id) >= 0 ==>
        GetPessoa(p.id) == Some(Overlay(old(GetPessoa(p.id)).value, p))
      ensures writeOk && p.id != "" ==> GetPessoa(p.id).Some?
    {
      var pessoas := Pessoas();
      var index := IndexOf(pessoas, PessoaId, p.id);
      if index >= 0 {
        pessoas := pessoas[index := Overlay(pessoas[index], p)];
      } else {
        pessoas := pessoas + [p.(id := if p.id == "" then DecimalString(now) else p.id)];
      }
      if !writeOk {
        return Failed(SavePessoaError);
      }
      pessoasSlot := Stored(pessoas);
      r := Done;
      if index < 0 && p.id != "" {
        assert Pessoas()[|Pessoas()| - 1].id == p.id;
      }
    }

    /** `deletePessoa`: keeps every person whose id differs, in order. */
    method DeletePessoa(id: string, writeOk: bool) returns (r: Outcome)
      modifies this
      ensures abordagensSlot == old(abordagensSlot)
      ensures r == if writeOk then Done else Failed(DeletePessoaError)
      ensures !writeOk ==> pessoasSlot == old(pessoasSlot)
      ensures writeOk ==> pessoasSlot == Stored(WithoutId(old(Pessoas()), PessoaId, id))
      ensures writeOk ==> GetPessoa(id).None?
    {
      var kept := WithoutId(Pessoas(), PessoaId, id);
      if !writeOk {
        return Failed(DeletePessoaError);
      }
      pessoasSlot := Stored(kept);
      r := Done;
    }

    /**
     * `searchPessoas`: [] for a blank query; otherwise the people, in stored
     * order and as often as stored, one of whose name, mother's or father's
     * name, RG or CPF contains the lower-cased, trimmed query.
     */
    function SearchPessoas(query: string): (r: seq<Pessoa>)
      reads this
      ensures SearchTerm(query) == "" ==> r == []
      ensures SearchTerm(query) != "" ==>
                && (forall k :: 0 <= k < |r| ==> r[k] in Pessoas() && Matches(r[k], SearchTerm(query)))
                && (forall k :: 0 <= k < |Pessoas()| && Matches(Pessoas()[k], SearchTerm(query)) ==> Pessoas()[k] in r)
      ensures SubseqOf(r, Pessoas())
      ensures SearchTerm(query) != "" ==>
                forall k :: 0 <= k < |Pessoas()| && Matches(Pessoas()[k], SearchTerm(query)) ==>
                  multiset(r)[Pessoas()[k]] == multiset(Pessoas())[Pessoas()[k]]
    {
      var term := SearchTerm(query);
      if term == "" then [] else Matching(Pessoas(), term)
    }

    /**
     * `saveAbordagem`: replaces the first event with the same id wholesale,
     * or appends it; then writes the list back.
     */
    method SaveAbordagem(a: Abordagem, writeOk: bool) returns (r: Outcome)
      modifies this
      ensures pessoasSlot == old(pessoasSlot)
      ensures r == if writeOk then Done else Failed(SaveAbordagemError)
      ensures !writeOk ==> abordagensSlot == old(abordagensSlot)
      ensures writeOk ==> abordagensSlot.Stored?
      ensures writeOk ==>
        var before := old(Abordagens());
        var i := IndexOf(before, AbordagemId, a.id);
        if i >= 0 then Abordagens() == before[i := a] else Abordagens() == before + [a]
      ensures writeOk ==> GetAbordagem(a.id) == Some(a)
    {
      var abordagens := Abordagens();
      var index := IndexOf(abordagens, AbordagemId, a.id);
      ghost var pos: int;
      if index >= 0 {
        abordagens := abordagens[index := a];
        pos := index;
      } else {
        abordagens := abordagens + [a];
        pos := |abordagens| - 1;
      }
      if !writeOk {
        return Failed(SaveAbordagemError);
      }
      abordagensSlot := Stored(abordagens);
      r := Done;
      assert forall k :: 0 <= k < pos ==> abordagens[k].id != a.id;
      assert abordagens[pos] == a;
    }

    /** `deleteAbordagem`: keeps every event whose id differs, in order. */
    method DeleteAbordagem(id: string, writeOk: bool) returns (r: Outcome)
      modifies this
      ensures pessoasSlot == old(pessoasSlot)
      ensures r == if writeOk then Done else Failed(DeleteAbordagemError)
      ensures !writeOk ==> abordagensSlot == old(abordagensSlot)
      ensures writeOk ==> abordagensSlot == Stored(WithoutId(old(Abordagens()), AbordagemId, id))
      ensures writeOk ==> GetAbordagem(id).None?
    {
      var kept := WithoutId(Abordagens(), AbordagemId, id);
      if !writeOk {
        return Failed(DeleteAbordagemError);
      }
      abordagensSlot := Stored(kept);
      r := Done;
    }

    /**
     * `getAbordagensByPessoa`: the events that involve the person, newest
     * first; `timeOf` stands for `new Date(timestamp).getTime()`.
     */
    function GetAbordagensByPessoa(pessoaId: string, timeOf: string -> int): (r: seq<Abordagem>)
      reads this
      ensures forall k :: 0 <= k < |r| ==> r[k] in Abordagens() && Involves(r[k], pessoaId)
      ensures forall k :: 0 <= k < |Abordagens()| && Involves(Abordagens()[k], pessoaId) ==> Abordagens()[k] in r
      ensures multiset(r) == multiset(InvolvingPessoa(Abordagens(), pessoaId))
      ensures forall i, j :: 0 <= i < j < |r| ==> timeOf(r[i].timestamp) >= timeOf(r[j].timestamp)
    {
      var involved := InvolvingPessoa(Abordagens(), pessoaId);
      var r := NewestEventsFirst(involved, timeOf);
      SameMembers(r, involved);
      SameMembers(involved, r);
      r
    }
  }

}
