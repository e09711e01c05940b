/**
  data_loader.py: the cache of historical candles on disk. A path is built
  from the symbol, the timeframe and the period inside a folder that is
  created on the way; a list of candles is saved to it as JSON and loaded
  back, and loading a path with no file gives None. The file system is a
  store of folders and files; JSON encoding itself is not part of this
  model, the rows being lists of strings that it gives back unchanged.
*/
module CarregadorDados {
  import opened Wrappers

  /** The kline rows as the exchange sends them: lists of strings. */
  type Velas = seq<seq<string>>

  /** The folder pasta defaults to. */
  const PastaPadrao: string := "dados_historicos"

  /** The directories and the files, each file holding the candles last
      saved to it. */
  datatype Arquivos = Arquivos(pastas: set<string>, arquivos: map<string, Velas>)

  /** f'{cripto}_{tempo_grafico}m_{start}-{end}.json', with each value
      given as the text str() makes of it. */
  function NomeArquivo(cripto: string, tempoGrafico: string, inicio: string, fim: string): (nome: string)
    ensures |nome| >= 5 && nome[|nome| - 5..] == ".json"
    ensures |nome| > |cripto| && nome[..|cripto|] == cripto
  {
    cripto + "_" + tempoGrafico + "m_" + inicio + "-" + fim + ".json"
  }

  /** os.path.join(a, b) on POSIX: an absolute b replaces a; otherwise a
      separator goes between them unless a is empty or already ends in
      one. */
  function Junta(a: string, b: string): (r: string)
    ensures |b| > 0 && b[0] == '/' ==> r == b
    ensures !(|b| > 0 && b[0] == '/') ==> |r| >= |b| && |r| >= |a| && r[|r| - |b|..] == b && r[..|a|] == a
    ensures !(|b| > 0 && b[0] == '/') && a != [] && a[|a| - 1] != '/' ==> r == a + "/" + b
  {
    if |b| > 0 && b[0] == '/' then b
    else if a == [] || a[|a| - 1] == '/' then a + b
    else a + "/" + b
  }

  /** h without its trailing separators. */
  function Apara(h: string): (r: string)
    ensures |r| <= |h| && r == h[..|r|]
    ensures r == [] || r[|r| - 1] != '/'
    ensures forall k :: |r| <= k < |h| ==> h[k] == '/'
    decreases |h|
  {
    if h == [] then [] else if h[|h| - 1] == '/' then Apara(h[..|h| - 1]) else h
  }

  /** A folder name as the file system knows it: without trailing
      separators, unless it is made only of them (the root). */
  function Normaliza(p: string): string {
    if Apara(p) == [] then p else Apara(p)
  }

  /** The position of the last separator, -1 when there is none. */
  function UltimaBarra(c: string): (i: int)
    ensures -1 <= i < |c|
    ensures i >= 0 ==> c[i] == '/'
    ensures forall k :: i < k < |c| ==> c[k] != '/'
    decreases |c|
  {
    if c == [] then -1 else if c[|c| - 1] == '/' then |c| - 1 else UltimaBarra(c[..|c| - 1])
  }

  /** os.path.dirname on POSIX: everything before the last separator,
      without trailing separators unless only separators are left. */
  function Dirname(c: string): string {
    var i := UltimaBarra(c);
    if i < 0 then "" else Normaliza(c[..i + 1])
  }

  /** The folder a path names exists: the working directory (no folder),
      the root, or a folder that was created. */
  predicate PastaExiste(s: Arquivos, p: string) {
    p == "" || Apara(p) == [] || p in s.pastas
  }

  /** The path obter_caminho_velas returns. */
  function CaminhoVelas(cripto: string, tempoGrafico: string, inicio: string, fim: string, pasta: string): string {
    Junta(pasta, NomeArquivo(cripto, tempoGrafico, inicio, fim))
  }

  /** The cache file is named after the symbol, the timeframe and the
      period, ends in .json, and sits inside the folder (unless the symbol
      itself starts with '/', when the join drops the folder). */
  lemma CaminhoNaPasta(cripto: string, tempoGrafico: string, inicio: string, fim: string, pasta: string)
    ensures var c := CaminhoVelas(cripto, tempoGrafico, inicio, fim, pasta);
      var nome := NomeArquivo(cripto, tempoGrafico, inicio, fim);
      && c[|c| - |nome|..] == nome
      && c[|c| - 5..] == ".json"
      && (!(|cripto| > 0 && cripto[0] == '/') ==> c[..|pasta|] == pasta)
      && (|cripto| > 0 && cripto[0] == '/' ==> c == nome)
  {
    var nome := NomeArquivo(cripto, tempoGrafico, inicio, fim);
    var c := CaminhoVelas(cripto, tempoGrafico, inicio, fim, pasta);
    if |cripto| > 0 {
      assert nome[0] == cripto[0];
    } else {
      assert nome[0] == '_';
    }
    assert c[|c| - 5..] == c[|c| - |nome|..][|nome| - 5..];
  }

  /** obter_caminho_velas on a store: os.makedirs creates the folder, or
      leaves an existing one, and fails on an empty name or a file of that
      name; the path is then built. */
  function ObtemCaminho(s: Arquivos, cripto: string, tempoGrafico: string, inicio: string, fim: string, pasta: string): (r: Result<(Arquivos, string)>)
    ensures r.Err? <==> pasta == "" || Normaliza(pasta) in s.arquivos
    ensures r.Ok? ==> r.value.0.pastas == s.pastas + {Normaliza(pasta)} && r.value.0.arquivos == s.arquivos
    ensures r.Ok? ==> r.value.1 == CaminhoVelas(cripto, tempoGrafico, inicio, fim, pasta)
    ensures r.Ok? && Normaliza(pasta) in s.pastas ==> r.value.0 == s
  {
    if pasta == "" then Err("No such file or directory: ''")
    else if Normaliza(pasta) in s.arquivos then Err("File exists: " + pasta)
    else Ok((s.(pastas := s.pastas + {Normaliza(pasta)}), CaminhoVelas(cripto, tempoGrafico, inicio, fim, pasta)))
  }

  /** carregar_velas_json: None when nothing exists at the path; opening a
      folder fails. */
  function Carrega(s: Arquivos, caminho: string): (r: Result<Option<Velas>>)
    ensures r == Ok(None) <==> caminho !in s.arquivos && caminho !in s.pastas
    ensures r.Ok? && r.value.Some? <==> caminho in s.arquivos
  {
    if caminho in s.arquivos then Ok(Some(s.arquivos[caminho]))
    else if caminho in s.pastas then Err("Is a directory: " + caminho)
    else Ok(None)
  }

  /** salvar_velas_json: the file is created or overwritten; opening the
      empty path or a folder for writing fails, and so does a path whose
      folder does not exist. */
  function Salva(s: Arquivos, caminho: string, velas: Velas): (r: Result<Arquivos>)
    ensures r.Err? <==> caminho == "" || caminho in s.pastas || !PastaExiste(s, Dirname(caminho))
    ensures r.Ok? ==> r.value.pastas == s.pastas && r.value.arquivos.Keys == s.arquivos.Keys + {caminho}
  {
    if caminho == "" then Err("No such file or directory: ''")
    else if caminho in s.pastas then Err("Is a directory: " + caminho)
    else if !PastaExiste(s, Dirname(caminho)) then Err("No such file or directory: " + caminho)
    else Ok(s.(arquivos := s.arquivos[caminho := velas]))
  }

  /** A folder and a file never share a path. */
  predicate Disjuntos(s: Arquivos) {
    forall c :: c in s.arquivos ==> c !in s.pastas
  }

  /** Saving and then loading the same path gives the saved candles back,
      every other path loads as before, and the store stays consistent. */
  lemma SalvaCarrega(s: Arquivos, caminho: string, velas: Velas, outro: string)
    requires Disjuntos(s)
    requires Salva(s, caminho, velas).Ok?
    ensures Disjuntos(Salva(s, caminho, velas).value)
    ensures Carrega(Salva(s, caminho, velas).value, caminho) == Ok(Some(velas))
    ensures outro != caminho ==> Carrega(Salva(s, caminho, velas).value, outro) == Carrega(s, outro)
  {
  }

  /** Saving fails exactly on the empty path, a folder or inside a missing
      folder; loading returns None exactly when nothing exists at the path. */
  lemma CarregaSalvaFalham(s: Arquivos, caminho: string, velas: Velas)
    requires Disjuntos(s)
    ensures Salva(s, caminho, velas).Err? <==> caminho == "" || caminho in s.pastas || !PastaExiste(s, Dirname(caminho))
    ensures Carrega(s, caminho) == Ok(None) <==> caminho !in s.arquivos && caminho !in s.pastas
    ensures Carrega(s, caminho).Err? <==> caminho in s.pastas
  {
  }

  /** A path obter_caminho_velas returns lies in the folder it has just
      created, when the file name holds no separator; so it can be saved to
      and then loaded back, unless the path is itself a folder. */
  lemma CaminhoSalvaCarrega(s: Arquivos, cripto: string, tempoGrafico: string, inicio: string, fim: string, pasta: string, velas: Velas)
    requires Disjuntos(s)
    requires ObtemCaminho(s, cripto, tempoGrafico, inicio, fim, pasta).Ok?
    ensures var (s1, c) := ObtemCaminho(s, cripto, tempoGrafico, inicio, fim, pasta).value;
      var nome := NomeArquivo(cripto, tempoGrafico, inicio, fim);
      && Disjuntos(s1)
      && ((forall k :: 0 <= k < |nome| ==> nome[k] != '/') ==> Dirname(c) == Normaliza(pasta))
      && ((forall k :: 0 <= k < |nome| ==> nome[k] != '/') && c !in s1.pastas ==>
            Salva(s1, c, velas).Ok? && Carrega(Salva(s1, c, velas).value, c) == Ok(Some(velas)))
  {
    var (s1, c) := ObtemCaminho(s, cripto, tempoGrafico, inicio, fim, pasta).value;
    var nome := NomeArquivo(cripto, tempoGrafico, inicio, fim);
    if forall k :: 0 <= k < |nome| ==> nome[k] != '/' {
      DirnameNaPasta(pasta, nome);
    }
  }

  /** Joining a folder and a name without separators puts the name in that
      folder. */
  lemma DirnameNaPasta(pasta: string, nome: string)
    requires pasta != [] && nome != []
    requires forall k :: 0 <= k < |nome| ==> nome[k] != '/'
    ensures Dirname(Junta(pasta, nome)) == Normaliza(pasta)
  {
    var c := Junta(pasta, nome);
    if pasta[|pasta| - 1] == '/' {
      assert c == pasta + nome;
      assert c[|pasta| - 1] == '/';
      assert UltimaBarra(c) == |pasta| - 1;
      assert c[..|pasta|] == pasta;
    } else {
      assert c == pasta + "/" + nome;
      assert c[|pasta|] == '/';
      assert UltimaBarra(c) == |pasta|;
      assert c[..|pasta| + 1] == pasta + "/";
      assert (pasta + "/")[..|pasta|] == pasta;
      assert Apara(pasta) == pasta;
    }
  }

  /** The disk, as the three functions see it. */
  class Disco {
    var pastas: set<string>
    var arquivos: map<string, Velas>

    function Estado(): Arquivos
      reads this
    {
      Arquivos(pastas, arquivos)
    }

    constructor(s: Arquivos)
      ensures Estado() == s
    {
      pastas := s.pastas;
      arquivos := s.arquivos;
    }

    method ObterCaminhoVelas(cripto: string, tempoGrafico: string, inicio: string, fim: string, pasta: string) returns (r: Result<string>)
      modifies this
      ensures var o := ObtemCaminho(old(Estado()), cripto, tempoGrafico, inicio, fim, pasta);
        if o.Ok? then r == Ok(o.value.1) && Estado() == o.value.0
        else r.Err? && Estado() == old(Estado())
    {
      if pasta == "" {
        return Err("No such file or directory: ''");
      } else if Normaliza(pasta) in arquivos {
        return Err("File exists: " + pasta);
      }
      pastas := pastas + {Normaliza(pasta)};
      r := Ok(CaminhoVelas(cripto, tempoGrafico, inicio, fim, pasta));
    }

    method CarregarVelasJson(caminho: string) returns (r: Result<Option<Velas>>)
      ensures r == Carrega(Estado(), caminho)
    {
      if caminho in arquivos {
        r := Ok(Some(arquivos[caminho]));
      } else if caminho in pastas {
        r := Err("Is a directory: " + caminho);
      } else {
        r := Ok(None);
      }
    }

    method SalvarVelasJson(caminho: string, velas: Velas) returns (r: Result<()>)
      modifies this
      ensures var o := Salva(old(Estado()), caminho, velas);
        if o.Ok? then r.Ok? && Estado() == o.value
        else r.Err? && Estado() == old(Estado())
    {
      if caminho == "" {
        return Err("No such file or directory: ''");
      } else if caminho in pastas {
        return Err("Is a directory: " + caminho);
      } else if !PastaExiste(Estado(), Dirname(caminho)) {
        return Err("No such file or directory: " + caminho);
      }
      arquivos := arquivos[caminho := velas];
      r := Ok(());
    }
  }
}
