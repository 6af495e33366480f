/** The sixteen text generators of testGenerator.js, as templates: for
    each generator, the literal text that each group of its `code += ...`
    statements appends. The generators are listed field by field; the
    comment above each case gives the lines of the generators it covers.
    The seventeenth generator, Postman, builds a collection object instead
    (module Postman). */
module Frameworks {
  import opened Skeletons

  /** The keys of the generator table, one variant per generator. */
  datatype Framework =
    | Playwright | Cypress | Jest | Mocha | Jasmine
    | Pytest | SeleniumPython
    | SeleniumJava | JUnit | TestNG | RestAssured
    | NUnit | XUnit | SeleniumCSharp
    | RSpec | Capybara
    | Postman
  {
    /** The generators that return source text. */
    predicate IsText() { this != Postman }

    /** The generators that open a browser driver in a fixture. */
    predicate UsesDriver() { this == SeleniumPython || this == SeleniumJava || this == SeleniumCSharp }

    /** The generators whose method name follows the Python rule. */
    predicate IsPython() { this == Pytest || this == SeleniumPython }

    /** The generators whose method name follows the Java and C# rule. */
    predicate IsJavaLike() {
      this == SeleniumJava || this == JUnit || this == TestNG || this == RestAssured
      || this == NUnit || this == XUnit || this == SeleniumCSharp
    }

    /** The generators whose suite has no closing text. */
    predicate HasEmptyFooter() { this == Playwright || this == Pytest || this == SeleniumPython }
  }

  /** The template of a text generator. Its driver fixtures, naming rule
      and closing text follow the generator's family. */
  function TemplateOf(fw: Framework): (r: Template)
    requires fw.IsText()
    ensures |r.setup| > 0 <==> fw.UsesDriver()
    ensures |r.teardown| > 0 <==> fw.UsesDriver()
    ensures (exists j :: 0 <= j < |r.declaration| && NamesWith(r.declaration[j], PythonStyle)) <==> fw.IsPython()
    ensures (exists j :: 0 <= j < |r.declaration| && NamesWith(r.declaration[j], JavaStyle)) <==> fw.IsJavaLike()
    ensures r.footer == "" <==> fw.HasEmptyFooter()
  {
    FixturesIffDriver(fw);
    NamingRuleIff(fw);
    Template(Prelude(fw), Setup(fw), Teardown(fw), Declaration(fw), IdPrefix(fw),
             TitleNote(fw), StepPrefix(fw), ExpectedEnd(fw), Trailer(fw), Footer(fw))
  }

  /** Imports and the opening of the suite. */
  function Prelude(fw: Framework): seq<string>
    requires fw.IsText()
  {
    match fw
    // :219-237
    case Playwright => ["import { test, expect } from '@playwright/test';\n\n"]
    // :323-340, :239-258, :361-378
    case Cypress | Jest | Jasmine => ["describe('Test Suite', () => {\n\n"]
    // :342-359
    case Mocha =>
      ["const { expect } = require('chai');\n\n",
       "describe('Test Suite', function() {\n\n"]
    // :380-400
    case Pytest => ["import pytest\n\n", "class TestSuite:\n"]
    // :402-433
    case SeleniumPython =>
      ["import pytest\n",
       "from selenium import webdriver\n",
       "from selenium.webdriver.common.by import By\n",
       "from selenium.webdriver.support.ui import WebDriverWait\n",
       "from selenium.webdriver.support import expected_conditions as EC\n\n",
       "class TestSuite:\n"]
    // :435-471
    case SeleniumJava =>
      ["import org.junit.jupiter.api.*;\n",
       "import org.openqa.selenium.WebDriver;\n",
       "import org.openqa.selenium.chrome.ChromeDriver;\n",
       "import static org.junit.jupiter.api.Assertions.*;\n\n",
       "public class TestSuite {\n",
       "    private WebDriver driver;\n\n"]
    // :473-494
    case JUnit =>
      ["import org.junit.jupiter.api.*;\n",
       "import static org.junit.jupiter.api.Assertions.*;\n\n",
       "public class TestSuite {\n\n"]
    // :496-516
    case TestNG =>
      ["import org.testng.annotations.*;\n",
       "import static org.testng.Assert.*;\n\n",
       "public class TestSuite {\n\n"]
    // :602-635
    case RestAssured =>
      ["import io.restassured.RestAssured;\n",
       "import io.restassured.response.Response;\n",
       "import org.junit.jupiter.api.Test;\n",
       "import static io.restassured.RestAssured.*;\n",
       "import static org.hamcrest.Matchers.*;\n\n",
       "public class APITestSuite {\n\n",
       "    static {\n",
       "        RestAssured.baseURI = \"YOUR_API_BASE_URL\";\n",
       "    }\n\n"]
    // :518-540
    case NUnit =>
      ["using NUnit.Framework;\n\n",
       "namespace TestSuite\n{\n",
       "    [TestFixture]\n",
       "    public class Tests\n    {\n\n"]
    // :542-563
    case XUnit =>
      ["using Xunit;\n\n",
       "namespace TestSuite\n{\n",
       "    public class Tests\n    {\n\n"]
    // :565-600
    case SeleniumCSharp =>
      ["using OpenQA.Selenium;\n",
       "using OpenQA.Selenium.Chrome;\n",
       "using NUnit.Framework;\n\n",
       "namespace TestSuite\n{\n",
       "    [TestFixture]\n",
       "    public class Tests\n    {\n",
       "        private IWebDriver driver;\n\n"]
    // :676-694
    case RSpec =>
      ["require 'spec_helper'\n\n",
       "RSpec.describe 'Test Suite' do\n\n"]
    // :696-719
    case Capybara =>
      ["require 'spec_helper'\n",
       "require 'capybara/rspec'\n\n",
       "RSpec.describe 'Test Suite', type: :feature do\n\n"]
  }

  /** The driver set-up fixture; empty for the generators without a driver. */
  function Setup(fw: Framework): seq<string>
    requires fw.IsText()
  {
    match fw
    // :402-433
    case SeleniumPython =>
      ["    @pytest.fixture(autouse=True)\n",
       "    def setup(self):\n",
       "        self.driver = webdriver.Chrome()\n",
       "        self.driver.implicitly_wait(10)\n",
       "        yield\n"]
    // :435-471
    case SeleniumJava =>
      ["    @BeforeEach\n",
       "    public void setUp() {\n",
       "        driver = new ChromeDriver();\n",
       "        driver.manage().timeouts().implicitlyWait(10, java.util.concurrent.TimeUnit.SECONDS);\n",
       "    }\n\n"]
    // :565-600
    case SeleniumCSharp =>
      ["        [SetUp]\n",
       "        public void Setup()\n        {\n",
       "            driver = new ChromeDriver();\n",
       "            driver.Manage().Timeouts().ImplicitWait = TimeSpan.FromSeconds(10);\n",
       "        }\n\n"]
    case _ => []
  }

  /** The driver teardown fixture; empty for the generators without a driver. */
  function Teardown(fw: Framework): seq<string>
    requires fw.IsText()
  {
    match fw
    // :402-433
    case SeleniumPython => ["        self.driver.quit()\n\n"]
    // :435-471
    case SeleniumJava =>
      ["    @AfterEach\n",
       "    public void tearDown() {\n",
       "        if (driver != null) {\n",
       "            driver.quit();\n",
       "        }\n",
       "    }\n\n"]
    // :565-600
    case SeleniumCSharp =>
      ["        [TearDown]\n",
       "        public void Teardown()\n        {\n",
       "            driver?.Quit();\n",
       "        }\n\n"]
    case _ => []
  }

  /** The lines that open a test unit, with the title or the method name
      derived from it. */
  function Declaration(fw: Framework): seq<Line>
    requires fw.IsText()
  {
    match fw
    // :219-237
    case Playwright => [WithTitle("test('", Verbatim, "', async ({ page }) => {\n")]
    // :323-340, :361-378
    case Cypress | Jasmine => [WithTitle("  it('", Verbatim, "', () => {\n")]
    // :239-258
    case Jest => [WithTitle("  test('", Verbatim, "', () => {\n")]
    // :342-359
    case Mocha => [WithTitle("  it('", Verbatim, "', function() {\n")]
    // :380-400, :402-433
    case Pytest | SeleniumPython =>
      [WithTitle("    def test_", PythonStyle, "(self):\n"),
       Fixed("        \"\"\"\n")]
    // :435-471, :602-635
    case SeleniumJava | RestAssured =>
      [Fixed("    @Test\n"),
       WithTitle("    public void test", JavaStyle, "() {\n")]
    // :473-494
    case JUnit =>
      [Fixed("    @Test\n"),
       WithTitle("    @DisplayName(\"", Verbatim, "\")\n"),
       WithTitle("    public void test", JavaStyle, "() {\n")]
    // :496-516
    case TestNG =>
      [WithTitle("    @Test(description = \"", Verbatim, "\")\n"),
       WithTitle("    public void test", JavaStyle, "() {\n")]
    // :518-540
    case NUnit =>
      [Fixed("        [Test]\n"),
       WithTitle("        [Description(\"", Verbatim, "\")]\n"),
       WithTitle("        public void Test", JavaStyle, "()\n        {\n")]
    // :542-563
    case XUnit =>
      [Fixed("        [Fact]\n"),
       WithTitle("        public void Test", JavaStyle, "()\n        {\n")]
    // :565-600
    case SeleniumCSharp =>
      [Fixed("        [Test]\n"),
       WithTitle("        public void Test", JavaStyle, "()\n        {\n")]
    // :676-694
    case RSpec => [WithTitle("  it '", Verbatim, "' do\n")]
    // :696-719
    case Capybara => [WithTitle("  scenario '", Verbatim, "' do\n")]
  }

  /** What precedes `Test ID: `. */
  function IdPrefix(fw: Framework): string
    requires fw.IsText()
  {
    match fw
    // :219-237
    case Playwright => "  // "
    // :323-340, :239-258, :342-359, :361-378
    case Cypress | Jest | Mocha | Jasmine => "    // "
    // :380-400, :402-433
    case Pytest | SeleniumPython => "        "
    // :435-471, :473-494, :496-516, :602-635
    case SeleniumJava | JUnit | TestNG | RestAssured => "        // "
    // :518-540, :542-563, :565-600
    case NUnit | XUnit | SeleniumCSharp => "            // "
    // :676-694, :696-719
    case RSpec | Capybara => "    # "
  }

  /** The lines between the `Test ID` line and the first step. */
  function TitleNote(fw: Framework): seq<Line>
    requires fw.IsText()
  {
    match fw
    // :380-400
    case Pytest => [WithTitle("        ", Verbatim, "\n\n")]
    // :402-433
    case SeleniumPython =>
      [WithTitle("        ", Verbatim, "\n"),
       Fixed("        \"\"\"\n")]
    // :435-471, :602-635
    case SeleniumJava | RestAssured => [WithTitle("        // ", Verbatim, "\n")]
    // :542-563, :565-600
    case XUnit | SeleniumCSharp => [WithTitle("            // ", Verbatim, "\n")]
    case _ => []
  }

  /** What precedes `Step k: ` and `Expected: `. */
  function StepPrefix(fw: Framework): string
    requires fw.IsText()
  {
    match fw
    // :219-237
    case Playwright => "  // "
    // :323-340, :239-258, :342-359, :361-378
    case Cypress | Jest | Mocha | Jasmine => "    // "
    // :380-400
    case Pytest => "        "
    // :402-433
    case SeleniumPython => "        # "
    // :435-471, :473-494, :496-516, :602-635
    case SeleniumJava | JUnit | TestNG | RestAssured => "        // "
    // :518-540, :542-563, :565-600
    case NUnit | XUnit | SeleniumCSharp => "            // "
    // :676-694, :696-719
    case RSpec | Capybara => "    # "
  }

  /** What follows the expected text. */
  function ExpectedEnd(fw: Framework): string
    requires fw.IsText()
  {
    match fw
    // :380-400
    case Pytest => "\n"
    case _ => "\n\n"
  }

  /** The fixed lines that close a test unit. */
  function Trailer(fw: Framework): seq<string>
    requires fw.IsText()
  {
    match fw
    // :219-237
    case Playwright =>
      ["  // TODO: Implement test steps\n",
       "  await page.goto('YOUR_URL_HERE');\n",
       "  // Add your test implementation here\n",
       "});\n\n"]
    // :323-340
    case Cypress =>
      ["    cy.visit('YOUR_URL_HERE');\n",
       "    // Add your test implementation here\n",
       "  });\n\n"]
    // :239-258
    case Jest =>
      ["    // TODO: Implement test steps\n",
       "    // Add your test implementation here\n",
       "  });\n\n"]
    // :342-359
    case Mocha =>
      ["    // TODO: Implement test steps\n",
       "  });\n\n"]
    // :361-378
    case Jasmine =>
      ["    // TODO: Implement test steps\n",
       "    // expect(result).toBe(expected);\n",
       "  });\n\n"]
    // :380-400
    case Pytest =>
      ["        \"\"\"\n",
       "        # TODO: Implement test steps\n",
       "        pass\n\n"]
    // :402-433
    case SeleniumPython =>
      ["        self.driver.get(\"YOUR_URL_HERE\")\n",
       "        # TODO: Implement test steps\n",
       "        pass\n\n"]
    // :435-471
    case SeleniumJava =>
      ["        driver.get(\"YOUR_URL_HERE\");\n",
       "        // TODO: Implement test steps\n",
       "    }\n\n"]
    // :473-494, :496-516
    case JUnit | TestNG =>
      ["        // TODO: Implement test steps\n",
       "    }\n\n"]
    // :602-635
    case RestAssured =>
      ["        given()\n",
       "            .contentType(\"application/json\")\n",
       "        .when()\n",
       "            .get(\"/endpoint\")\n",
       "        .then()\n",
       "            .statusCode(200);\n",
       "        // TODO: Add assertions\n",
       "    }\n\n"]
    // :518-540, :542-563
    case NUnit | XUnit =>
      ["            // TODO: Implement test steps\n",
       "        }\n\n"]
    // :565-600
    case SeleniumCSharp =>
      ["            driver.Navigate().GoToUrl(\"YOUR_URL_HERE\");\n",
       "            // TODO: Implement test steps\n",
       "        }\n\n"]
    // :676-694
    case RSpec =>
      ["    # TODO: Implement test steps\n",
       "  end\n\n"]
    // :696-719
    case Capybara =>
      ["    visit 'YOUR_URL_HERE'\n",
       "    # TODO: Implement test steps\n",
       "    # Example: fill_in 'Username', with: 'testuser'\n",
       "    # Example: click_button 'Submit'\n",
       "    # Example: expect(page).to have_content('Success')\n",
       "  end\n\n"]
  }

  /** What follows the last test unit. */
  function Footer(fw: Framework): (r: string)
    requires fw.IsText()
    ensures r == "" <==> fw.HasEmptyFooter()
  {
    match fw
    // :219-237, :380-400, :402-433
    case Playwright | Pytest | SeleniumPython => ""
    // :323-340, :239-258, :342-359, :361-378
    case Cypress | Jest | Mocha | Jasmine => "});\n"
    // :435-471, :473-494, :496-516, :602-635
    case SeleniumJava | JUnit | TestNG | RestAssured => "}\n"
    // :518-540, :542-563, :565-600
    case NUnit | XUnit | SeleniumCSharp => "    }\n}\n"
    // :676-694, :696-719
    case RSpec | Capybara => "end\n"
  }

  // ---------------------------------------------------------------------
  // Properties of the templates
  // ---------------------------------------------------------------------

  /** The driver fixtures appear exactly in the three Selenium generators:
      each of them has set-up and teardown lines, every other generator
      has neither. */
  lemma FixturesIffDriver(fw: Framework)
    requires fw.IsText()
    ensures |Setup(fw)| > 0 <==> fw.UsesDriver()
    ensures |Teardown(fw)| > 0 <==> fw.UsesDriver()
  {
    SetupIffDriver(fw);
    TeardownIffDriver(fw);
  }

  lemma SetupIffDriver(fw: Framework)
    requires fw.IsText()
    ensures |Setup(fw)| > 0 <==> fw.UsesDriver()
  {
    if fw == SeleniumPython {
      SeleniumPythonFixtures();
    } else if fw == SeleniumJava {
      SeleniumJavaSetupLines();
    } else if fw == SeleniumCSharp {
      SeleniumCSharpSetupLines();
    } else {
      NoDriverNoFixtures(fw);
    }
  }

  lemma TeardownIffDriver(fw: Framework)
    requires fw.IsText()
    ensures |Teardown(fw)| > 0 <==> fw.UsesDriver()
  {
    if fw == SeleniumPython {
      SeleniumPythonFixtures();
    } else if fw == SeleniumJava {
      SeleniumJavaTeardownLines();
    } else if fw == SeleniumCSharp {
      SeleniumCSharpTeardownLines();
    } else {
      NoDriverNoFixtures(fw);
    }
  }

  lemma NoDriverNoFixtures(fw: Framework)
    requires fw.IsText() && !fw.UsesDriver()
    ensures Setup(fw) == [] && Teardown(fw) == []
  {
  }

  lemma SeleniumPythonFixtures()
    ensures |Setup(SeleniumPython)| > 0 && |Teardown(SeleniumPython)| > 0
  {
  }

  lemma SeleniumJavaSetupLines()
    ensures |Setup(SeleniumJava)| > 0
  {
  }

  lemma SeleniumJavaTeardownLines()
    ensures |Teardown(SeleniumJava)| > 0
  {
  }

  lemma SeleniumCSharpSetupLines()
    ensures |Setup(SeleniumCSharp)| > 0
  {
  }

  lemma SeleniumCSharpTeardownLines()
    ensures |Teardown(SeleniumCSharp)| > 0
  {
  }

  /** The line derives a method name with the given rule. */
  predicate NamesWith(line: Line, style: NameStyle)
  {
    line.WithTitle? && line.style == style
  }

  /** The Python rule names the test methods of exactly the two Python
      generators, the Java and C# rule those of exactly the seven Java and
      C# generators; the others paste the title verbatim. */
  lemma NamingRuleIff(fw: Framework)
    requires fw.IsText()
    ensures (exists j :: 0 <= j < |Declaration(fw)| && NamesWith(Declaration(fw)[j], PythonStyle))
            <==> fw.IsPython()
    ensures (exists j :: 0 <= j < |Declaration(fw)| && NamesWith(Declaration(fw)[j], JavaStyle))
            <==> fw.IsJavaLike()
  {
    var d := Declaration(fw);
    if fw.IsPython() {
      assert NamesWith(d[0], PythonStyle);
    } else if fw == JUnit || fw == NUnit {
      assert NamesWith(d[2], JavaStyle);
    } else if fw.IsJavaLike() {
      assert NamesWith(d[1], JavaStyle);
    }
  }
}
