/**
 * The records of the application (src/types/index.ts), as values.
 * Optional properties become `Option`s: `None` is a property that is absent.
 */
module Types {
  import opened Wrappers

  datatype Localizacao = Localizacao(
    logradouro: string,
    numero: string,
    bairro: string,
    latitude: Option<real>,
    longitude: Option<real>)

  datatype Veiculo = Veiculo(marca: string, modelo: string, cor: string)

  /** A person on record. */
  datatype Pessoa = Pessoa(
    id: string,
    nome: Option<string>,
    nomeMae: Option<string>,
    nomePai: Option<string>,
    dataNascimento: Option<string>,
    rg: Option<string>,
    cpf: Option<string>,
    endereco: Option<string>,
    fotoPerfil: Option<string>,
    fotos: seq<string>,
    veiculos: seq<Veiculo>,
    anotacoes: Option<string>)

  /** An approach event: when, where, and the people involved. */
  datatype Abordagem = Abordagem(id: string, timestamp: string, local: Localizacao, pessoas: seq<Pessoa>)

  function PessoaId(p: Pessoa): string { p.id }

  function AbordagemId(a: Abordagem): string { a.id }

  /** `abordagem.pessoas.some(p => p.id === pid)` */
  predicate Involves(a: Abordagem, pid: string) {
    exists k :: 0 <= k < |a.pessoas| && a.pessoas[k].id == pid
  }
}
