/** `normalizeStateName`: the fixed table that turns Brazilian state
    codes and accent-free upper-case names into the full names the map
    expects. */
module StateNames {
  import opened Wrappers
  import opened Text

  /** The table, keyed by the upper-cased, trimmed input. The keys are
      grouped by their first letter. */
  function StateLookup(key: string): (r: Option<string>)
    ensures r.Some? ==> |key| >= 2 && r.value != ""
  {
    if |key| == 0 then None
    else match key[0]
      case 'A' =>
        (match key
        case "AC" => Some("Acre")
        case "ACRE" => Some("Acre")
        case "AL" => Some("Alagoas")
        case "ALAGOAS" => Some("Alagoas")
        case "AP" => Some("Amap\U{00E1}")
        case "AMAPA" => Some("Amap\U{00E1}")
        case "AM" => Some("Amazonas")
        case "AMAZONAS" => Some("Amazonas")
        case _ => None)
      case 'B' =>
        (match key
        case "BA" => Some("Bahia")
        case "BAHIA" => Some("Bahia")
        case _ => None)
      case 'C' =>
        (match key
        case "CE" => Some("Cear\U{00E1}")
        case "CEARA" => Some("Cear\U{00E1}")
        case "CEAR\U{00C1}" => Some("Cear\U{00E1}")
        case _ => None)
      case 'D' =>
        (match key
        case "DF" => Some("Distrito Federal")
        case "DISTRITO FEDERAL" => Some("Distrito Federal")
        case _ => None)
      case 'E' =>
        (match key
        case "ES" => Some("Esp\U{00ED}rito Santo")
        case "ESPIRITO SANTO" => Some("Esp\U{00ED}rito Santo")
        case _ => None)
      case 'G' =>
        (match key
        case "GO" => Some("Goi\U{00E1}s")
        case "GOIAS" => Some("Goi\U{00E1}s")
        case _ => None)
      case 'M' =>
        (match key
        case "MA" => Some("Maranh\U{00E3}o")
        case "MARANHAO" => Some("Maranh\U{00E3}o")
        case "MT" => Some("Mato Grosso")
        case "MATO GROSSO" => Some("Mato Grosso")
        case "MS" => Some("Mato Grosso do Sul")
        case "MATO GROSSO DO SUL" => Some("Mato Grosso do Sul")
        case "MG" => Some("Minas Gerais")
        case "MINAS GERAIS" => Some("Minas Gerais")
        case _ => None)
      case 'P' =>
        (match key
        case "PA" => Some("Par\U{00E1}")
        case "PARA" => Some("Par\U{00E1}")
        case "PB" => Some("Para\U{00ED}ba")
        case "PARAIBA" => Some("Para\U{00ED}ba")
        case "PR" => Some("Paran\U{00E1}")
        case "PARANA" => Some("Paran\U{00E1}")
        case "PE" => Some("Pernambuco")
        case "PERNAMBUCO" => Some("Pernambuco")
        case "PI" => Some("Piau\U{00ED}")
        case "PIAUI" => Some("Piau\U{00ED}")
        case _ => None)
      case 'R' =>
        (match key
        case "RJ" => Some("Rio de Janeiro")
        case "RIO DE JANEIRO" => Some("Rio de Janeiro")
        case "RN" => Some("Rio Grande do Norte")
        case "RIO GRANDE DO NORTE" => Some("Rio Grande do Norte")
        case "RS" => Some("Rio Grande do Sul")
        case "RIO GRANDE DO SUL" => Some("Rio Grande do Sul")
        case "RO" => Some("Rond\U{00F4}nia")
        case "RONDONIA" => Some("Rond\U{00F4}nia")
        case "RR" => Some("Roraima")
        case "RORAIMA" => Some("Roraima")
        case _ => None)
      case 'S' =>
        (match key
        case "SC" => Some("Santa Catarina")
        case "SANTA CATARINA" => Some("Santa Catarina")
        case "SP" => Some("S\U{00E3}o Paulo")
        case "SAO PAULO" => Some("S\U{00E3}o Paulo")
        case "SE" => Some("Sergipe")
        case "SERGIPE" => Some("Sergipe")
        case _ => None)
      case 'T' =>
        (match key
        case "TO" => Some("Tocantins")
        case "TOCANTINS" => Some("Tocantins")
        case _ => None)
      case _ => None
  }

  /** The 27 full names the table produces. */
  predicate IsCanonical(name: string) {
    match name
    case "Acre" => true
    case "Alagoas" => true
    case "Amap\U{00E1}" => true
    case "Amazonas" => true
    case "Bahia" => true
    case "Cear\U{00E1}" => true
    case "Distrito Federal" => true
    case "Esp\U{00ED}rito Santo" => true
    case "Goi\U{00E1}s" => true
    case "Maranh\U{00E3}o" => true
    case "Mato Grosso" => true
    case "Mato Grosso do Sul" => true
    case "Minas Gerais" => true
    case "Par\U{00E1}" => true
    case "Para\U{00ED}ba" => true
    case "Paran\U{00E1}" => true
    case "Pernambuco" => true
    case "Piau\U{00ED}" => true
    case "Rio de Janeiro" => true
    case "Rio Grande do Norte" => true
    case "Rio Grande do Sul" => true
    case "Rond\U{00F4}nia" => true
    case "Roraima" => true
    case "Santa Catarina" => true
    case "S\U{00E3}o Paulo" => true
    case "Sergipe" => true
    case "Tocantins" => true
    case _ => false
  }

  /** Whatever the table gives is one of the full names. */
  lemma LookupIsCanonical(key: string)
    requires StateLookup(key).Some?
    ensures IsCanonical(StateLookup(key).value)
  {
  }

  /** `normalizeStateName`: empty input gives ""; otherwise the input is
      upper-cased and trimmed and looked up, and an input the table does
      not know comes back exactly as given, untrimmed. */
  function NormalizeStateName(input: string): (r: string)
    ensures input == "" ==> r == ""
    ensures IsCanonical(r) || r == input
  {
    if input == "" then ""
    else
      match StateLookup(Trim(Upper(input)))
      case Some(name) =>
        LookupIsCanonical(Trim(Upper(input)));
        name
      case None => input
  }

  /** A non-empty name whose key the table maps back to it, or does not
      know, is left as it is. */
  lemma FixedByTable(name: string, key: string)
    requires name != "" && Trim(Upper(name)) == key
    requires StateLookup(key) == Some(name) || StateLookup(key) == None
    ensures NormalizeStateName(name) == name
  {
  }

  // Proof scaffolding for CanonicalIsFixed, one pair per full name: the
  // name's table key (`...Key`) and the name left as it is (`...IsFixed`).
  // Each pair is a literal fact about one table entry.

  lemma AcreKey()
    ensures Trim(Upper("Acre")) == "ACRE"
  {
    assert Upper("Acre") == "ACRE";
    TrimmedAlready("ACRE");
  }

  lemma AcreIsFixed()
    ensures NormalizeStateName("Acre") == "Acre"
  {
    AcreKey();
    assert StateLookup("ACRE") == Some("Acre");
    FixedByTable("Acre", "ACRE");
  }

  lemma AlagoasKey()
    ensures Trim(Upper("Alagoas")) == "ALAGOAS"
  {
    assert Upper("Alagoas") == "ALAGOAS";
    TrimmedAlready("ALAGOAS");
  }

  lemma AlagoasIsFixed()
    ensures NormalizeStateName("Alagoas") == "Alagoas"
  {
    AlagoasKey();
    assert StateLookup("ALAGOAS") == Some("Alagoas");
    FixedByTable("Alagoas", "ALAGOAS");
  }

  lemma AmapaKey()
    ensures Trim(Upper("Amap\U{00E1}")) == "AMAP\U{00C1}"
  {
    assert Upper("Amap\U{00E1}") == "AMAP\U{00C1}";
    TrimmedAlready("AMAP\U{00C1}");
  }

  lemma AmapaIsFixed()
    ensures NormalizeStateName("Amap\U{00E1}") == "Amap\U{00E1}"
  {
    AmapaKey();
    assert StateLookup("AMAP\U{00C1}") == None;
    FixedByTable("Amap\U{00E1}", "AMAP\U{00C1}");
  }

  lemma AmazonasKey()
    ensures Trim(Upper("Amazonas")) == "AMAZONAS"
  {
    assert Upper("Amazonas") == "AMAZONAS";
    TrimmedAlready("AMAZONAS");
  }

  lemma AmazonasIsFixed()
    ensures NormalizeStateName("Amazonas") == "Amazonas"
  {
    AmazonasKey();
    assert StateLookup("AMAZONAS") == Some("Amazonas");
    FixedByTable("Amazonas", "AMAZONAS");
  }

  lemma BahiaKey()
    ensures Trim(Upper("Bahia")) == "BAHIA"
  {
    assert Upper("Bahia") == "BAHIA";
    TrimmedAlready("BAHIA");
  }

  lemma BahiaIsFixed()
    ensures NormalizeStateName("Bahia") == "Bahia"
  {
    BahiaKey();
    assert StateLookup("BAHIA") == Some("Bahia");
    FixedByTable("Bahia", "BAHIA");
  }

  lemma CearaKey()
    ensures Trim(Upper("Cear\U{00E1}")) == "CEAR\U{00C1}"
  {
    assert Upper("Cear\U{00E1}") == "CEAR\U{00C1}";
    TrimmedAlready("CEAR\U{00C1}");
  }

  lemma CearaIsFixed()
    ensures NormalizeStateName("Cear\U{00E1}") == "Cear\U{00E1}"
  {
    CearaKey();
    assert StateLookup("CEAR\U{00C1}") == Some("Cear\U{00E1}");
    FixedByTable("Cear\U{00E1}", "CEAR\U{00C1}");
  }

  lemma DistritoFederalKey()
    ensures Trim(Upper("Distrito Federal")) == "DISTRITO FEDERAL"
  {
    assert Upper("Distrito Federal") == "DISTRITO FEDERAL";
    TrimmedAlready("DISTRITO FEDERAL");
  }

  lemma DistritoFederalIsFixed()
    ensures NormalizeStateName("Distrito Federal") == "Distrito Federal"
  {
    DistritoFederalKey();
    assert StateLookup("DISTRITO FEDERAL") == Some("Distrito Federal");
    FixedByTable("Distrito Federal", "DISTRITO FEDERAL");
  }

  lemma EspiritoSantoKey()
    ensures Trim(Upper("Esp\U{00ED}rito Santo")) == "ESP\U{00CD}RITO SANTO"
  {
    assert Upper("Esp\U{00ED}rito Santo") == "ESP\U{00CD}RITO SANTO";
    TrimmedAlready("ESP\U{00CD}RITO SANTO");
  }

  lemma EspiritoSantoIsFixed()
    ensures NormalizeStateName("Esp\U{00ED}rito Santo") == "Esp\U{00ED}rito Santo"
  {
    EspiritoSantoKey();
    assert StateLookup("ESP\U{00CD}RITO SANTO") == None;
    FixedByTable("Esp\U{00ED}rito Santo", "ESP\U{00CD}RITO SANTO");
  }

  lemma GoiasKey()
    ensures Trim(Upper("Goi\U{00E1}s")) == "GOI\U{00C1}S"
  {
    assert Upper("Goi\U{00E1}s") == "GOI\U{00C1}S";
    TrimmedAlready("GOI\U{00C1}S");
  }

  lemma GoiasIsFixed()
    ensures NormalizeStateName("Goi\U{00E1}s") == "Goi\U{00E1}s"
  {
    GoiasKey();
    assert StateLookup("GOI\U{00C1}S") == None;
    FixedByTable("Goi\U{00E1}s", "GOI\U{00C1}S");
  }

  lemma MaranhaoKey()
    ensures Trim(Upper("Maranh\U{00E3}o")) == "MARANH\U{00C3}O"
  {
    assert Upper("Maranh\U{00E3}o") == "MARANH\U{00C3}O";
    TrimmedAlready("MARANH\U{00C3}O");
  }

  lemma MaranhaoIsFixed()
    ensures NormalizeStateName("Maranh\U{00E3}o") == "Maranh\U{00E3}o"
  {
    MaranhaoKey();
    assert StateLookup("MARANH\U{00C3}O") == None;
    FixedByTable("Maranh\U{00E3}o", "MARANH\U{00C3}O");
  }

  lemma MatoGrossoKey()
    ensures Trim(Upper("Mato Grosso")) == "MATO GROSSO"
  {
    assert Upper("Mato Grosso") == "MATO GROSSO";
    TrimmedAlready("MATO GROSSO");
  }

  lemma MatoGrossoIsFixed()
    ensures NormalizeStateName("Mato Grosso") == "Mato Grosso"
  {
    MatoGrossoKey();
    assert StateLookup("MATO GROSSO") == Some("Mato Grosso");
    FixedByTable("Mato Grosso", "MATO GROSSO");
  }

  lemma MatoGrossodoSulKey()
    ensures Trim(Upper("Mato Grosso do Sul")) == "MATO GROSSO DO SUL"
  {
    assert Upper("Mato Grosso do Sul") == "MATO GROSSO DO SUL";
    TrimmedAlready("MATO GROSSO DO SUL");
  }

  lemma MatoGrossodoSulIsFixed()
    ensures NormalizeStateName("Mato Grosso do Sul") == "Mato Grosso do Sul"
  {
    MatoGrossodoSulKey();
    assert StateLookup("MATO GROSSO DO SUL") == Some("Mato Grosso do Sul");
    FixedByTable("Mato Grosso do Sul", "MATO GROSSO DO SUL");
  }

  lemma MinasGeraisKey()
    ensures Trim(Upper("Minas Gerais")) == "MINAS GERAIS"
  {
    assert Upper("Minas Gerais") == "MINAS GERAIS";
    TrimmedAlready("MINAS GERAIS");
  }

  lemma MinasGeraisIsFixed()
    ensures NormalizeStateName("Minas Gerais") == "Minas Gerais"
  {
    MinasGeraisKey();
    assert StateLookup("MINAS GERAIS") == Some("Minas Gerais");
    FixedByTable("Minas Gerais", "MINAS GERAIS");
  }

  lemma ParaKey()
    ensures Trim(Upper("Par\U{00E1}")) == "PAR\U{00C1}"
  {
    assert Upper("Par\U{00E1}") == "PAR\U{00C1}";
    TrimmedAlready("PAR\U{00C1}");
  }

  lemma ParaIsFixed()
    ensures NormalizeStateName("Par\U{00E1}") == "Par\U{00E1}"
  {
    ParaKey();
    assert StateLookup("PAR\U{00C1}") == None;
    FixedByTable("Par\U{00E1}", "PAR\U{00C1}");
  }

  lemma ParaibaKey()
    ensures Trim(Upper("Para\U{00ED}ba")) == "PARA\U{00CD}BA"
  {
    assert Upper("Para\U{00ED}ba") == "PARA\U{00CD}BA";
    TrimmedAlready("PARA\U{00CD}BA");
  }

  lemma ParaibaIsFixed()
    ensures NormalizeStateName("Para\U{00ED}ba") == "Para\U{00ED}ba"
  {
    ParaibaKey();
    assert StateLookup("PARA\U{00CD}BA") == None;
    FixedByTable("Para\U{00ED}ba", "PARA\U{00CD}BA");
  }

  lemma ParanaKey()
    ensures Trim(Upper("Paran\U{00E1}")) == "PARAN\U{00C1}"
  {
    assert Upper("Paran\U{00E1}") == "PARAN\U{00C1}";
    TrimmedAlready("PARAN\U{00C1}");
  }

  lemma ParanaIsFixed()
    ensures NormalizeStateName("Paran\U{00E1}") == "Paran\U{00E1}"
  {
    ParanaKey();
    assert StateLookup("PARAN\U{00C1}") == None;
    FixedByTable("Paran\U{00E1}", "PARAN\U{00C1}");
  }

  lemma PernambucoKey()
    ensures Trim(Upper("Pernambuco")) == "PERNAMBUCO"
  {
    assert Upper("Pernambuco") == "PERNAMBUCO";
    TrimmedAlready("PERNAMBUCO");
  }

  lemma PernambucoIsFixed()
    ensures NormalizeStateName("Pernambuco") == "Pernambuco"
  {
    PernambucoKey();
    assert StateLookup("PERNAMBUCO") == Some("Pernambuco");
    FixedByTable("Pernambuco", "PERNAMBUCO");
  }

  lemma PiauiKey()
    ensures Trim(Upper("Piau\U{00ED}")) == "PIAU\U{00CD}"
  {
    assert Upper("Piau\U{00ED}") == "PIAU\U{00CD}";
    TrimmedAlready("PIAU\U{00CD}");
  }

  lemma PiauiIsFixed()
    ensures NormalizeStateName("Piau\U{00ED}") == "Piau\U{00ED}"
  {
    PiauiKey();
    assert StateLookup("PIAU\U{00CD}") == None;
    FixedByTable("Piau\U{00ED}", "PIAU\U{00CD}");
  }

  lemma RiodeJaneiroKey()
    ensures Trim(Upper("Rio de Janeiro")) == "RIO DE JANEIRO"
  {
    assert Upper("Rio de Janeiro") == "RIO DE JANEIRO";
    TrimmedAlready("RIO DE JANEIRO");
  }

  lemma RiodeJaneiroIsFixed()
    ensures NormalizeStateName("Rio de Janeiro") == "Rio de Janeiro"
  {
    RiodeJaneiroKey();
    assert StateLookup("RIO DE JANEIRO") == Some("Rio de Janeiro");
    FixedByTable("Rio de Janeiro", "RIO DE JANEIRO");
  }

  lemma RioGrandedoNorteKey()
    ensures Trim(Upper("Rio Grande do Norte")) == "RIO GRANDE DO NORTE"
  {
    assert Upper("Rio Grande do Norte") == "RIO GRANDE DO NORTE";
    TrimmedAlready("RIO GRANDE DO NORTE");
  }

  lemma RioGrandedoNorteIsFixed()
    ensures NormalizeStateName("Rio Grande do Norte") == "Rio Grande do Norte"
  {
    RioGrandedoNorteKey();
    assert StateLookup("RIO GRANDE DO NORTE") == Some("Rio Grande do Norte");
    FixedByTable("Rio Grande do Norte", "RIO GRANDE DO NORTE");
  }

  lemma RioGrandedoSulKey()
    ensures Trim(Upper("Rio Grande do Sul")) == "RIO GRANDE DO SUL"
  {
    assert Upper("Rio Grande do Sul") == "RIO GRANDE DO SUL";
    TrimmedAlready("RIO GRANDE DO SUL");
  }

  lemma RioGrandedoSulIsFixed()
    ensures NormalizeStateName("Rio Grande do Sul") == "Rio Grande do Sul"
  {
    RioGrandedoSulKey();
    assert StateLookup("RIO GRANDE DO SUL") == Some("Rio Grande do Sul");
    FixedByTable("Rio Grande do Sul", "RIO GRANDE DO SUL");
  }

  lemma RondoniaKey()
    ensures Trim(Upper("Rond\U{00F4}nia")) == "ROND\U{00D4}NIA"
  {
    assert Upper("Rond\U{00F4}nia") == "ROND\U{00D4}NIA";
    TrimmedAlready("ROND\U{00D4}NIA");
  }

  lemma RondoniaIsFixed()
    ensures NormalizeStateName("Rond\U{00F4}nia") == "Rond\U{00F4}nia"
  {
    RondoniaKey();
    assert StateLookup("ROND\U{00D4}NIA") == None;
    FixedByTable("Rond\U{00F4}nia", "ROND\U{00D4}NIA");
  }

  lemma RoraimaKey()
    ensures Trim(Upper("Roraima")) == "RORAIMA"
  {
    assert Upper("Roraima") == "RORAIMA";
    TrimmedAlready("RORAIMA");
  }

  lemma RoraimaIsFixed()
    ensures NormalizeStateName("Roraima") == "Roraima"
  {
    RoraimaKey();
    assert StateLookup("RORAIMA") == Some("Roraima");
    FixedByTable("Roraima", "RORAIMA");
  }

  lemma SantaCatarinaKey()
    ensures Trim(Upper("Santa Catarina")) == "SANTA CATARINA"
  {
    assert Upper("Santa Catarina") == "SANTA CATARINA";
    TrimmedAlready("SANTA CATARINA");
  }

  lemma SantaCatarinaIsFixed()
    ensures NormalizeStateName("Santa Catarina") == "Santa Catarina"
  {
    SantaCatarinaKey();
    assert StateLookup("SANTA CATARINA") == Some("Santa Catarina");
    FixedByTable("Santa Catarina", "SANTA CATARINA");
  }

  lemma SaoPauloKey()
    ensures Trim(Upper("S\U{00E3}o Paulo")) == "S\U{00C3}O PAULO"
  {
    assert Upper("S\U{00E3}o Paulo") == "S\U{00C3}O PAULO";
    TrimmedAlready("S\U{00C3}O PAULO");
  }

  lemma SaoPauloIsFixed()
    ensures NormalizeStateName("S\U{00E3}o Paulo") == "S\U{00E3}o Paulo"
  {
    SaoPauloKey();
    assert StateLookup("S\U{00C3}O PAULO") == None;
    FixedByTable("S\U{00E3}o Paulo", "S\U{00C3}O PAULO");
  }

  lemma SergipeKey()
    ensures Trim(Upper("Sergipe")) == "SERGIPE"
  {
    assert Upper("Sergipe") == "SERGIPE";
    TrimmedAlready("SERGIPE");
  }

  lemma SergipeIsFixed()
    ensures NormalizeStateName("Sergipe") == "Sergipe"
  {
    SergipeKey();
    assert StateLookup("SERGIPE") == Some("Sergipe");
    FixedByTable("Sergipe", "SERGIPE");
  }

  lemma TocantinsKey()
    ensures Trim(Upper("Tocantins")) == "TOCANTINS"
  {
    assert Upper("Tocantins") == "TOCANTINS";
    TrimmedAlready("TOCANTINS");
  }

  lemma TocantinsIsFixed()
    ensures NormalizeStateName("Tocantins") == "Tocantins"
  {
    TocantinsKey();
    assert StateLookup("TOCANTINS") == Some("Tocantins");
    FixedByTable("Tocantins", "TOCANTINS");
  }

  /** Every full name the table produces is left as it is. */
  lemma CanonicalIsFixed(name: string)
    requires IsCanonical(name)
    ensures NormalizeStateName(name) == name
  {
    if name == "Acre" {
      AcreIsFixed();
    } else if name == "Alagoas" {
      AlagoasIsFixed();
    } else if name == "Amap\U{00E1}" {
      AmapaIsFixed();
    } else if name == "Amazonas" {
      AmazonasIsFixed();
    } else if name == "Bahia" {
      BahiaIsFixed();
    } else if name == "Cear\U{00E1}" {
      CearaIsFixed();
    } else if name == "Distrito Federal" {
      DistritoFederalIsFixed();
    } else if name == "Esp\U{00ED}rito Santo" {
      EspiritoSantoIsFixed();
    } else if name == "Goi\U{00E1}s" {
      GoiasIsFixed();
    } else if name == "Maranh\U{00E3}o" {
      MaranhaoIsFixed();
    } else if name == "Mato Grosso" {
      MatoGrossoIsFixed();
    } else if name == "Mato Grosso do Sul" {
      MatoGrossodoSulIsFixed();
    } else if name == "Minas Gerais" {
      MinasGeraisIsFixed();
    } else if name == "Par\U{00E1}" {
      ParaIsFixed();
    } else if name == "Para\U{00ED}ba" {
      ParaibaIsFixed();
    } else if name == "Paran\U{00E1}" {
      ParanaIsFixed();
    } else if name == "Pernambuco" {
      PernambucoIsFixed();
    } else if name == "Piau\U{00ED}" {
      PiauiIsFixed();
    } else if name == "Rio de Janeiro" {
      RiodeJaneiroIsFixed();
    } else if name == "Rio Grande do Norte" {
      RioGrandedoNorteIsFixed();
    } else if name == "Rio Grande do Sul" {
      RioGrandedoSulIsFixed();
    } else if name == "Rond\U{00F4}nia" {
      RondoniaIsFixed();
    } else if name == "Roraima" {
      RoraimaIsFixed();
    } else if name == "Santa Catarina" {
      SantaCatarinaIsFixed();
    } else if name == "S\U{00E3}o Paulo" {
      SaoPauloIsFixed();
    } else if name == "Sergipe" {
      SergipeIsFixed();
    } else if name == "Tocantins" {
      TocantinsIsFixed();
    }
  }

  /** Normalizing twice is normalizing once. */
  lemma NormalizeIdempotent(input: string)
    ensures NormalizeStateName(NormalizeStateName(input)) == NormalizeStateName(input)
  {
    var r := NormalizeStateName(input);
    if IsCanonical(r) {
      CanonicalIsFixed(r);
    }
  }

  /** A known key, in any case and with any surrounding blanks, gives the
      table's full name; an unknown one gives the input back untouched. */
  lemma NormalizeByKey(input: string, key: string)
    requires input != "" && Trim(Upper(input)) == key
    ensures StateLookup(key).Some? ==> NormalizeStateName(input) == StateLookup(key).value
    ensures StateLookup(key).None? ==> NormalizeStateName(input) == input
  {
  }

  // Literal facts about " sp " and " xx " for the two examples below.

  lemma LowerCodeKey()
    ensures Trim(Upper(" sp ")) == "SP"
  {
    assert Upper(" sp ") == " SP " by {
      assert UpperChar('s') == 'S' && UpperChar('p') == 'P' && UpperChar(' ') == ' ';
    }
    assert IsWhitespace(' ') && !IsWhitespace('S') && !IsWhitespace('P');
    assert TrimStart(" SP ") == TrimStart("SP ") == "SP ";
    assert TrimEnd("SP ") == TrimEnd("SP") == "SP";
  }

  lemma CodeSPLookup()
    ensures StateLookup("SP") == Some("S\U{00E3}o Paulo")
  {
  }

  /** A lower-case code with blanks around it still finds its state. */
  lemma NormalizeLowerCode()
    ensures NormalizeStateName(" sp ") == "S\U{00E3}o Paulo"
  {
    LowerCodeKey();
    CodeSPLookup();
    NormalizeByKey(" sp ", "SP");
  }

  lemma UnknownKey()
    ensures Trim(Upper(" xx ")) == "XX"
  {
    assert Upper(" xx ") == " XX " by {
      assert UpperChar('x') == 'X' && UpperChar(' ') == ' ';
    }
    assert IsWhitespace(' ') && !IsWhitespace('X');
    assert TrimStart(" XX ") == TrimStart("XX ") == "XX ";
    assert TrimEnd("XX ") == TrimEnd("XX") == "XX";
  }

  lemma UnknownLookup()
    ensures StateLookup("XX") == None
  {
  }

  /** A non-empty value whose trimmed, upper-cased key the table does not
      know comes back as given, blanks and case included. */
  lemma NormalizeUnknown(input: string)
    requires input != "" && StateLookup(Trim(Upper(input))).None?
    ensures NormalizeStateName(input) == input
  {
    NormalizeByKey(input, Trim(Upper(input)));
  }

  /** " xx " is such a value: its key "XX" is no state. */
  lemma NormalizeUnknownExample()
    ensures NormalizeStateName(" xx ") == " xx "
  {
    UnknownKey();
    UnknownLookup();
    NormalizeByKey(" xx ", "XX");
  }
}
