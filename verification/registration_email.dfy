/**
 * The welcome e-mail sent to a new registrant: the plan name, billing-period
 * text and price decision trees, and which values the template shows. Markup
 * and styling are not modelled; the rendered e-mail is the record `Welcome`
 * of the texts it displays.
 */
module RegistrationEmail {

  import opened Js

  /** The `registrationForm` prop. */
  datatype RegistrationForm = RegistrationForm(
    businessName: Field, fullName: Field, email: Field, taxId: Field, location: Field)

  /** The texts the template displays, in the order it displays them. */
  datatype Welcome = Welcome(
    greeting: string,        // `Hola {fullName},`
    planName: string,
    periodText: string,
    price: string,
    restaurant: string,      // businessName
    accessEmail: string,     // email
    setPasswordHref: string,
    footerEmail: string)     // `Este email fue enviado a {email}.`

  /** The button's target: a constant whose `{{email}}` and `{{token}}` are never substituted. */
  const SetPasswordHref := SetPasswordBase + EmailPlaceholder + TokenSeparator + TokenPlaceholder
  const SetPasswordBase := "https://app.forkcast.app/set-password?email="
  const TokenSeparator := "&token="
  const EmailPlaceholder := "{{email}}"
  const TokenPlaceholder := "{{token}}"

  /** `planType === 'starter' ? 'Starter' : planType === 'pro' ? 'Pro' : 'Enterprise'`. */
  function PlanName(planType: Field): (name: string)
    ensures name == "Starter" <==> planType == Some("starter")
    ensures name == "Pro" <==> planType == Some("pro")
    ensures name == "Enterprise" <==> planType != Some("starter") && planType != Some("pro")
  {
    if planType == Some("starter") then "Starter"
    else if planType == Some("pro") then "Pro"
    else "Enterprise"
  }

  /** `billingPeriod === 'monthly' ? 'mensual' : 'anual'`. */
  function PeriodText(billingPeriod: Field): (text: string)
    ensures text == "mensual" <==> billingPeriod == Some("monthly")
    ensures text == "anual" <==> billingPeriod != Some("monthly")
  {
    if billingPeriod == Some("monthly") then "mensual" else "anual"
  }

  /** The price label: free for starter, two fixed prices for pro, a custom quote for anything else. */
  function Price(planType: Field, billingPeriod: Field): (price: string)
    ensures price in {"Gratis", "$40/mes", "$490/año", "Personalizado"}
    ensures planType == Some("starter") ==> price == "Gratis"
    ensures planType == Some("pro") ==> price == (if billingPeriod == Some("monthly") then "$40/mes" else "$490/año")
    ensures planType != Some("starter") && planType != Some("pro") ==> price == "Personalizado"
  {
    if planType == Some("starter") then "Gratis"
    else if planType == Some("pro") then (if billingPeriod == Some("monthly") then "$40/mes" else "$490/año")
    else "Personalizado"
  }

  /**
   * The price tree and the plan-name / period trees never disagree: each of
   * the four prices goes with exactly one plan name, and the two pro prices
   * split exactly as the period text does.
   */
  lemma PriceMatchesPlanAndPeriod(planType: Field, billingPeriod: Field)
    ensures Price(planType, billingPeriod) == "Gratis" <==> PlanName(planType) == "Starter"
    ensures Price(planType, billingPeriod) == "Personalizado" <==> PlanName(planType) == "Enterprise"
    ensures Price(planType, billingPeriod) == "$40/mes"
      <==> PlanName(planType) == "Pro" && PeriodText(billingPeriod) == "mensual"
    ensures Price(planType, billingPeriod) == "$490/año"
      <==> PlanName(planType) == "Pro" && PeriodText(billingPeriod) == "anual"
  {
  }

  /** Only the pro plan's price depends on the billing period. */
  lemma PriceIgnoresPeriodUnlessPro(planType: Field, p1: Field, p2: Field)
    requires planType != Some("pro")
    ensures Price(planType, p1) == Price(planType, p2)
  {
  }

  /** `RegistrationEmail({ registrationForm, planType, billingPeriod })`, as the texts it shows. */
  function Render(form: RegistrationForm, planType: Field, billingPeriod: Field): Welcome {
    Welcome(
      RenderChild(form.fullName),
      PlanName(planType),
      PeriodText(billingPeriod),
      Price(planType, billingPeriod),
      RenderChild(form.businessName),
      RenderChild(form.email),
      SetPasswordHref,
      RenderChild(form.email))
  }

  /** `taxId` and `location` are accepted but never shown: forms differing only there render alike. */
  lemma RenderIgnoresTaxIdAndLocation(f: RegistrationForm, g: RegistrationForm, planType: Field, billingPeriod: Field)
    requires f.businessName == g.businessName && f.fullName == g.fullName && f.email == g.email
    ensures Render(f, planType, billingPeriod) == Render(g, planType, billingPeriod)
  {
  }

  /** The set-password link carries the literal placeholders, whatever the inputs. */
  lemma SetPasswordHrefIsUnsubstituted(form: RegistrationForm, planType: Field, billingPeriod: Field)
    ensures Render(form, planType, billingPeriod).setPasswordHref == SetPasswordHref
    ensures SetPasswordHref[|SetPasswordBase|..|SetPasswordBase| + |EmailPlaceholder|] == EmailPlaceholder
    ensures SetPasswordHref[|SetPasswordHref| - |TokenPlaceholder|..] == TokenPlaceholder
  {
    var head := SetPasswordBase + EmailPlaceholder;
    assert SetPasswordHref == head + (TokenSeparator + TokenPlaceholder);
    assert head[|SetPasswordBase|..] == EmailPlaceholder;
  }
}
