/**
 * The bodies of the five articles `SimpleKnowledgeBase` is seeded with, kept
 * in a module of their own so that only the proofs about the seeding see
 * these long texts.
 */
module SampleArticles {
  /** The indentation the sample article texts carry on every line (16 spaces). */
  const Indent: string := "                "

  /**
   * The body of the `i`-th sample article, exactly as `initialize_sample_data`
   * writes it: a leading newline and 16 spaces of indentation on every line.
   */
  function SampleBody(i: nat): string
    requires i < 5
  {
    if i == 0 then
      "\n" +
      Indent + "To reset your password, follow these steps:\n" +
      Indent + "1. Go to the login page\n" +
      Indent + "2. Click on \"Forgot Password\"\n" +
      Indent + "3. Enter your email address\n" +
      Indent + "4. Check your email for a reset link\n" +
      Indent + "5. Click the link and enter a new password\n" +
      Indent + "6. Confirm your new password\n" +
      Indent + "\n" +
      Indent + "If you don't receive the email, check your spam folder or contact support.\n" +
      Indent
    else if i == 1 then
      "\n" +
      Indent + "Our return policy allows returns within 30 days of purchase:\n" +
      Indent + "\n" +
      Indent + "- Items must be in original condition\n" +
      Indent + "- Original packaging required\n" +
      Indent + "- Return shipping is free for defective items\n" +
      Indent + "- Refunds processed within 5-7 business days\n" +
      Indent + "\n" +
      Indent + "To initiate a return:\n" +
      Indent + "1. Log into your account\n" +
      Indent + "2. Go to Order History\n" +
      Indent + "3. Select the item to return\n" +
      Indent + "4. Print return label\n" +
      Indent + "5. Ship item back\n" +
      Indent + "\n" +
      Indent + "Contact us if you have any questions about returns.\n" +
      Indent
    else if i == 2 then
      "\n" +
      Indent + "We accept the following payment methods:\n" +
      Indent + "\n" +
      Indent + "Credit/Debit Cards:\n" +
      Indent + "- Visa\n" +
      Indent + "- Mastercard\n" +
      Indent + "- American Express\n" +
      Indent + "- Discover\n" +
      Indent + "\n" +
      Indent + "Digital Wallets:\n" +
      Indent + "- PayPal\n" +
      Indent + "- Apple Pay\n" +
      Indent + "- Google Pay\n" +
      Indent + "\n" +
      Indent + "Other:\n" +
      Indent + "- Bank transfers (for business accounts)\n" +
      Indent + "- Gift cards\n" +
      Indent + "\n" +
      Indent + "All payments are processed securely through our payment partners.\n" +
      Indent
    else if i == 3 then
      "\n" +
      Indent + "Shipping options and delivery times:\n" +
      Indent + "\n" +
      Indent + "Standard Shipping (3-5 business days):\n" +
      Indent + "- Free for orders over $50\n" +
      Indent + "- $5.99 for orders under $50\n" +
      Indent + "\n" +
      Indent + "Express Shipping (1-2 business days):\n" +
      Indent + "- $12.99 for all orders\n" +
      Indent + "\n" +
      Indent + "Overnight Shipping:\n" +
      Indent + "- $25.99 for all orders\n" +
      Indent + "\n" +
      Indent + "International Shipping:\n" +
      Indent + "- Available to select countries\n" +
      Indent + "- 7-14 business days\n" +
      Indent + "- Additional customs fees may apply\n" +
      Indent + "\n" +
      Indent + "Track your order through your account or with the tracking number provided.\n" +
      Indent
    else
      "\n" +
      Indent + "Keep your account secure with these tips:\n" +
      Indent + "\n" +
      Indent + "Password Security:\n" +
      Indent + "- Use a strong, unique password\n" +
      Indent + "- Enable two-factor authentication\n" +
      Indent + "- Never share your password\n" +
      Indent + "\n" +
      Indent + "Account Monitoring:\n" +
      Indent + "- Regularly review your order history\n" +
      Indent + "- Check for unauthorized activity\n" +
      Indent + "- Update your contact information\n" +
      Indent + "\n" +
      Indent + "If you suspect unauthorized access:\n" +
      Indent + "1. Change your password immediately\n" +
      Indent + "2. Contact customer support\n" +
      Indent + "3. Review recent account activity\n" +
      Indent + "\n" +
      Indent + "We use industry-standard encryption to protect your data.\n" +
      Indent
  }
}
