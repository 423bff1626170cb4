/**
 * The electronic-signature helpers: the canonical text a signature is taken
 * over (`canonical_payload`), the keyed hash of that text (`compute_hash`,
 * with SHA-256 as a function parameter) and the guard of the QR-code data
 * URL (`make_qr_data_url`, with the image encoding as a function parameter).
 */
module Assinatura {
  import opened Wrappers
  import opened Text

  /** The order id as it reaches `int(pedido_id)`: a number or a string to parse. */
  datatype IdPedido = Inteiro(n: int) | Texto(s: string)

  /** `signed_at`: something with `isoformat()` (rendered by it), a string, or None. */
  datatype Instante = ComIsoformat(iso: string) | Cadeia(s: string) | Nenhum

  /** `int(pedido_id)`, which fails with ValueError on a string that is not an integer literal. */
  function ParaInt(id: IdPedido): Result<int>
  {
    match id
    case Inteiro(n) => Ok(n)
    case Texto(s) => ParseInt(s)
  }

  /** `(v or "").strip()`. */
  function Normalizar(v: Option<string>): (r: string)
    ensures v.None? ==> r == ""
    ensures v.Some? ==> r == Strip(v.value)
  {
    if v.None? then "" else Strip(v.value)
  }

  /** `str(signed_at)` after the optional `isoformat()`. */
  function TextoInstante(t: Instante): string
  {
    match t
    case ComIsoformat(iso) => iso
    case Cadeia(s) => s
    case Nenhum => "None"
  }

  /** `canonical_payload`: id, role, signer and instant joined by "|". */
  function CanonicalPayload(id: IdPedido, role: Option<string>, signer: Option<string>, t: Instante): (r: Result<string>)
    ensures r.Ok? <==> ParaInt(id).Ok?
  {
    var pid := ParaInt(id);
    if pid.Err? then Err(pid.error)
    else Ok(IntToString(pid.value) + "|" + Normalizar(role) + "|" + Normalizar(signer) + "|" + TextoInstante(t))
  }

  /** Splitting at the first "|": the text before it and the text after it. */
  function PrimeiraBarra(s: string): Option<(string, string)>
  {
    if s == [] then None
    else if s[0] == '|' then Some(([], s[1..]))
    else
      match PrimeiraBarra(s[1..])
      case None => None
      case Some(p) => Some(([s[0]] + p.0, p.1))
  }

  lemma {:induction false} PrimeiraBarraJunta(a: string, b: string)
    requires '|' !in a
    ensures PrimeiraBarra(a + "|" + b) == Some((a, b))
  {
    if a != [] {
      assert a[0] != '|' && '|' !in a[1..];
      PrimeiraBarraJunta(a[1..], b);
      var s := a + "|" + b;
      assert s[0] == a[0] && s[1..] == a[1..] + "|" + b;
      assert [a[0]] + a[1..] == a;
    } else {
      assert (a + "|" + b)[1..] == b;
    }
  }

  /** Reading a payload back into its four fields. */
  function Campos(s: string): Option<(string, string, string, string)>
  {
    match PrimeiraBarra(s)
    case None => None
    case Some(p1) =>
      match PrimeiraBarra(p1.1)
      case None => None
      case Some(p2) =>
        match PrimeiraBarra(p2.1)
        case None => None
        case Some(p3) => Some((p1.0, p2.0, p3.0, p3.1))
  }

  /** Four fields joined by "|", the first three without one, read back as themselves. */
  lemma CamposJunta(a: string, b: string, c: string, d: string)
    requires '|' !in a && '|' !in b && '|' !in c
    ensures Campos(a + "|" + b + "|" + c + "|" + d) == Some((a, b, c, d))
  {
    var cd := c + "|" + d;
    var bcd := b + "|" + cd;
    assert a + "|" + b + "|" + c + "|" + d == a + "|" + bcd;
    PrimeiraBarraJunta(a, bcd);
    PrimeiraBarraJunta(b, cd);
    PrimeiraBarraJunta(c, d);
  }

  /**
   * As long as role and signer hold no "|" once stripped, the payload reads
   * back as the rendered id, the stripped role and signer and the instant:
   * the serialisation is unambiguous.
   */
  lemma PayloadRoundTrip(id: IdPedido, role: Option<string>, signer: Option<string>, t: Instante)
    requires ParaInt(id).Ok? && '|' !in Normalizar(role) && '|' !in Normalizar(signer)
    ensures Campos(CanonicalPayload(id, role, signer, t).value)
         == Some((IntToString(ParaInt(id).value), Normalizar(role), Normalizar(signer), TextoInstante(t)))
  {
    CamposJunta(IntToString(ParaInt(id).value), Normalizar(role), Normalizar(signer), TextoInstante(t));
  }

  /** `str(i)` is injective. */
  lemma IntToStringInjective(i: int, j: int)
    requires IntToString(i) == IntToString(j)
    ensures i == j
  {
    if i < 0 && j < 0 {
      assert IntToString(i)[1..] == NatToString(-i) && IntToString(j)[1..] == NatToString(-j);
      NatToStringInjective(-i, -j);
    } else if i >= 0 && j >= 0 {
      NatToStringInjective(i, j);
    }
  }

  /** Two signatures with the same payload have the same order, stripped role and signer, and instant. */
  lemma PayloadInjective(id1: IdPedido, role1: Option<string>, signer1: Option<string>, t1: Instante,
                         id2: IdPedido, role2: Option<string>, signer2: Option<string>, t2: Instante)
    requires ParaInt(id1).Ok? && '|' !in Normalizar(role1) && '|' !in Normalizar(signer1)
    requires ParaInt(id2).Ok? && '|' !in Normalizar(role2) && '|' !in Normalizar(signer2)
    requires CanonicalPayload(id1, role1, signer1, t1) == CanonicalPayload(id2, role2, signer2, t2)
    ensures ParaInt(id1) == ParaInt(id2) && Normalizar(role1) == Normalizar(role2)
    ensures Normalizar(signer1) == Normalizar(signer2) && TextoInstante(t1) == TextoInstante(t2)
  {
    PayloadRoundTrip(id1, role1, signer1, t1);
    PayloadRoundTrip(id2, role2, signer2, t2);
    IntToStringInjective(ParaInt(id1).value, ParaInt(id2).value);
  }

  /** Whitespace around the role or the signer never changes the payload. */
  lemma PayloadIgnoraEspacos(id: IdPedido, p: string, role: string, q: string, signer: string, u: string, t: Instante)
    requires AllSpace(p) && AllSpace(q) && AllSpace(u)
    ensures CanonicalPayload(id, Some(p + role + q), Some(p + signer + u), t)
         == CanonicalPayload(id, Some(role), Some(signer), t)
  {
    StripPadded(p, role, q);
    StripPadded(p, signer, u);
  }

  /** `secret or settings.SECRET_KEY`. */
  function Segredo(secret: Option<string>, secretKey: string): string
  {
    if secret.Some? && secret.value != "" then secret.value else secretKey
  }

  /**
   * `compute_hash`: the given payload, or the canonical one built from the
   * fields when none is given, then `sha(payload + "|" + secret)`.
   */
  function ComputeHash(sha: string -> string, id: IdPedido, role: Option<string>, signer: Option<string>, t: Instante,
                       payload: Option<string>, secret: Option<string>, secretKey: string): (r: Result<string>)
    ensures payload.Some? ==> r == Ok(sha(payload.value + "|" + Segredo(secret, secretKey)))
    ensures payload.None? ==> (r.Ok? <==> ParaInt(id).Ok?)
  {
    var p := if payload.Some? then Ok(payload.value) else CanonicalPayload(id, role, signer, t);
    if p.Err? then Err(p.error) else Ok(sha(p.value + "|" + Segredo(secret, secretKey)))
  }

  /**
   * Hashing from the fields is hashing their canonical payload, and once a
   * payload is given the fields play no part.
   */
  lemma ComputeHashDosCampos(sha: string -> string, id: IdPedido, role: Option<string>, signer: Option<string>, t: Instante,
                             id2: IdPedido, role2: Option<string>, signer2: Option<string>, t2: Instante,
                             secret: Option<string>, secretKey: string)
    requires ParaInt(id).Ok?
    ensures ComputeHash(sha, id, role, signer, t, None, secret, secretKey)
         == ComputeHash(sha, id2, role2, signer2, t2, Some(CanonicalPayload(id, role, signer, t).value), secret, secretKey)
  {
  }

  /** A "|" lies beyond a whitespace prefix. */
  lemma BarraDepoisDoPrefixo(s: string, n: nat, k: nat)
    requires n <= |s| && AllSpace(s[..n]) && k < |s| && s[k] == '|'
    ensures n <= k
  {
    assert forall i :: 0 <= i < n ==> s[..n][i] == s[i];
  }

  /** A "|" lies before a whitespace suffix. */
  lemma BarraAntesDoSufixo(s: string, n: nat, k: nat)
    requires n <= |s| && AllSpace(s[n..]) && k < |s| && s[k] == '|'
    ensures k < n
  {
    assert forall i :: n <= i < |s| ==> s[n..][i - n] == s[i];
  }

  /** A "|" survives `strip()`, which only removes whitespace. */
  lemma StripMantemBarra(s: string)
    requires '|' in s
    ensures '|' in Strip(s)
  {
    var l := StripLeft(s);
    var k :| 0 <= k < |s| && s[k] == '|';
    BarraDepoisDoPrefixo(s, |s| - |l|, k);
    var j := k - (|s| - |l|);
    assert l[j] == '|';
    var r := StripRight(l);
    BarraAntesDoSufixo(l, |r|, j);
    assert r[j] == '|';
  }

  /** A text holding a "|" is never an integer literal. */
  lemma ParseIntRecusaBarra(s: string)
    requires '|' in s
    ensures ParseInt(s).Err?
  {
    StripMantemBarra(s);
    var t := Strip(s);
    var j :| 0 <= j < |t| && t[j] == '|';
    assert !AllDigits(t);
    if j > 0 && |t| > 1 {
      assert t[1..][j - 1] == '|';
      assert !AllDigits(t[1..]);
    }
  }

  /**
   * Passing a canonical payload as the first positional argument
   * (`compute_hash(payload)`) makes it the order id, and `int()` of it always
   * fails: the payload must be passed by keyword.
   */
  lemma HashPosicionalFalha(sha: string -> string, id: IdPedido, role: Option<string>, signer: Option<string>, t: Instante,
                            secretKey: string)
    requires CanonicalPayload(id, role, signer, t).Ok?
    ensures ComputeHash(sha, Texto(CanonicalPayload(id, role, signer, t).value), None, None, Nenhum, None, None, secretKey).Err?
    ensures ComputeHash(sha, id, None, None, Nenhum, Some(CanonicalPayload(id, role, signer, t).value), None, secretKey).Ok?
  {
    var p := CanonicalPayload(id, role, signer, t).value;
    var a := IntToString(ParaInt(id).value);
    assert p[|a|] == '|';
    ParseIntRecusaBarra(p);
  }

  const PrefixoPng := "data:image/png;base64,"

  /**
   * `make_qr_data_url`: nothing for an empty or missing text or when the QR
   * library is unavailable; otherwise the PNG data URL of the encoded image.
   */
  function QrDataUrl(text: Option<string>, qrDisponivel: bool, pngBase64: string -> string): (r: Option<string>)
    ensures r.None? <==> text.None? || text.value == "" || !qrDisponivel
    ensures r.Some? ==> |r.value| >= |PrefixoPng| && r.value[..|PrefixoPng|] == PrefixoPng
  {
    if text.None? || text.value == "" || !qrDisponivel then None
    else Some(PrefixoPng + pngBase64(text.value))
  }
}
