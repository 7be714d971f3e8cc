/** Driver resolution: the JDBC URL's scheme prefix picks the driver class. */
module Drivers {
  import opened Model

  predicate StartsWith(s: string, prefix: string)
  {
    |prefix| <= |s| && s[..|prefix|] == prefix
  }

  /** The supported prefixes with their driver classes, in the order they are tried. */
  const Supported: seq<(string, string)> := [
    ("jdbc:h2:", "org.h2.Driver"),
    ("jdbc:oracle:", "oracle.jdbc.OracleDriver"),
    ("jdbc:mysql:", "com.mysql.cj.jdbc.Driver"),
    ("jdbc:postgresql:", "org.postgresql.Driver")
  ]

  function UnsupportedMessage(url: string): string
  {
    "Unsupported database URL: " + url
  }

  /** `getDriverClass`: `Err` carries the message of the IllegalArgumentException it throws. */
  function GetDriverClass(url: string): (r: Result<string, string>)
    ensures r.Ok? ==> exists i :: 0 <= i < |Supported| && StartsWith(url, Supported[i].0) && r.value == Supported[i].1
    ensures r.Err? ==> r.error == UnsupportedMessage(url) && forall i :: 0 <= i < |Supported| ==> !StartsWith(url, Supported[i].0)
  {
    if StartsWith(url, "jdbc:h2:") then
      assert Supported[0] == ("jdbc:h2:", "org.h2.Driver");
      Ok("org.h2.Driver")
    else if StartsWith(url, "jdbc:oracle:") then
      assert Supported[1] == ("jdbc:oracle:", "oracle.jdbc.OracleDriver");
      Ok("oracle.jdbc.OracleDriver")
    else if StartsWith(url, "jdbc:mysql:") then
      assert Supported[2] == ("jdbc:mysql:", "com.mysql.cj.jdbc.Driver");
      Ok("com.mysql.cj.jdbc.Driver")
    else if StartsWith(url, "jdbc:postgresql:") then
      assert Supported[3] == ("jdbc:postgresql:", "org.postgresql.Driver");
      Ok("org.postgresql.Driver")
    else Err(UnsupportedMessage(url))
  }

  /** Reference definition: the driver of the first entry of `table` whose prefix `url` starts with. */
  function FirstMatch(url: string, table: seq<(string, string)>): (r: Result<string, string>)
    ensures r.Ok? <==> exists i :: 0 <= i < |table| && StartsWith(url, table[i].0)
    ensures r.Err? ==> r.error == UnsupportedMessage(url)
  {
    if table == [] then Err(UnsupportedMessage(url))
    else if StartsWith(url, table[0].0) then Ok(table[0].1)
    else
      var r := FirstMatch(url, table[1..]);
      assert forall i :: 1 <= i < |table| ==> table[i] == table[1..][i - 1];
      r
  }

  lemma {:induction false} GetDriverClassIsFirstMatch(url: string)
    ensures GetDriverClass(url) == FirstMatch(url, Supported)
  {
    var t0 := Supported;
    var t1, t2, t3 := t0[1..], t0[2..], t0[3..];
    assert t0[1..] == t1 && t1[1..] == t2 && t2[1..] == t3 && t3[1..] == [];
    assert FirstMatch(url, t3) == if StartsWith(url, "jdbc:postgresql:") then Ok("org.postgresql.Driver") else Err(UnsupportedMessage(url));
    assert FirstMatch(url, t2) == if StartsWith(url, "jdbc:mysql:") then Ok("com.mysql.cj.jdbc.Driver") else FirstMatch(url, t3);
    assert FirstMatch(url, t1) == if StartsWith(url, "jdbc:oracle:") then Ok("oracle.jdbc.OracleDriver") else FirstMatch(url, t2);
  }

  /** No supported prefix is a prefix of another, so at most one of them matches any URL. */
  lemma PrefixesExclusive(url: string, i: nat, j: nat)
    requires i < |Supported| && j < |Supported|
    requires StartsWith(url, Supported[i].0) && StartsWith(url, Supported[j].0)
    ensures i == j
  {
    var p, q := Supported[i].0, Supported[j].0;
    assert url[5] == p[5] && url[5] == q[5];
    assert url[6] == p[6] && url[6] == q[6];
  }

  /** A URL with a supported prefix resolves to that prefix's driver, whatever the order of the checks. */
  lemma DriverOfPrefix(url: string, i: nat)
    requires i < |Supported| && StartsWith(url, Supported[i].0)
    ensures GetDriverClass(url) == Ok(Supported[i].1)
  {
    if StartsWith(url, Supported[0].0) {
      PrefixesExclusive(url, i, 0);
    } else if StartsWith(url, Supported[1].0) {
      PrefixesExclusive(url, i, 1);
    } else if StartsWith(url, Supported[2].0) {
      PrefixesExclusive(url, i, 2);
    } else {
      PrefixesExclusive(url, i, 3);
    }
  }

  /** Any other URL fails with the "Unsupported database URL" message. */
  lemma UnsupportedUrl(url: string)
    requires forall i :: 0 <= i < |Supported| ==> !StartsWith(url, Supported[i].0)
    ensures GetDriverClass(url) == Err("Unsupported database URL: " + url)
  {
    GetDriverClassIsFirstMatch(url);
  }
}
